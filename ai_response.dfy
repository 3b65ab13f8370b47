/** Turning the language model's reply into invoice data (services/aiService.ts): code fences are
    removed, the JSON object is cut out of the surrounding prose and handed to the JSON parser. The
    model call itself is outside; its reply, the configured token and `JSON.parse` are parameters. */
module AiResponse {
  import opened Wrappers
  import opened Text

  /** The errors `parseInvoiceWithAI` throws. */
  datatype ParseError = TokenMissing | EmptyResponse | JsonNotFound | InvalidJson

  // ---------------------------------------------------------------------------------------------
  // Removing code fences

  /** `pat` occurs at the start of `s`; with `fold`, ASCII letters of `s` match regardless of case
      (`pat` itself is written in lower case). */
  predicate MatchesAt(s: string, pat: string, fold: bool) {
    |s| >= |pat| && (if fold then ToLower(s[..|pat|]) else s[..|pat|]) == pat
  }

  /** `s.replace(/pat/g, '')` (with `fold`, `/pat/gi`) for a literal pattern: matches are found left
      to right and do not overlap, and each is dropped. */
  function RemoveMatches(s: string, pat: string, fold: bool): (r: string)
    requires pat != []
    ensures |r| <= |s|
    ensures forall i :: 0 <= i < |r| ==> r[i] in s
    decreases |s|
  {
    if s == [] then []
    else if MatchesAt(s, pat, fold) then
      var t := RemoveMatches(s[|pat|..], pat, fold);
      assert forall i :: 0 <= i < |t| ==> t[i] in s[|pat|..];
      t
    else
      var t := RemoveMatches(s[1..], pat, fold);
      assert forall i :: 0 <= i < |t| ==> t[i] in s[1..];
      [s[0]] + t
  }

  const TaggedFence: string := "```json"
  const BareFence: string := "```"

  /** The reply with both kinds of fence removed and surrounding whitespace trimmed. */
  function Clean(responseText: string): string {
    Trim(RemoveMatches(RemoveMatches(responseText, TaggedFence, true), BareFence, false))
  }

  /** Cleaning never lengthens the reply and leaves no whitespace at either end. */
  lemma CleanTrimmed(responseText: string)
    ensures |Clean(responseText)| <= |responseText|
    ensures var r := Clean(responseText);
      r == [] || (!IsJsWhitespace(r[0]) && !IsJsWhitespace(r[|r| - 1]))
  {
    var s := RemoveMatches(RemoveMatches(responseText, TaggedFence, true), BareFence, false);
    var t := TrimStart(s);
    assert TrimEnd(t) == [] || TrimEnd(t)[0] == t[0];
  }

  predicate NoChar(s: string, c: char) {
    forall i :: 0 <= i < |s| ==> s[i] != c
  }

  /** Text that holds no character the pattern could start with passes through removal unchanged. */
  lemma {:induction false} RemoveMatchesKeepsPlainPrefix(a: string, b: string, pat: string, fold: bool)
    requires pat != [] && pat[0] == '`'
    requires NoChar(a, '`')
    ensures RemoveMatches(a + b, pat, fold) == a + RemoveMatches(b, pat, fold)
  {
    if a == [] {
      assert a + b == b;
    } else {
      var s := a + b;
      assert s[0] == a[0] && s[1..] == a[1..] + b;
      assert !MatchesAt(s, pat, fold) by {
        if |s| >= |pat| {
          if fold {
            assert ToLower(s[..|pat|])[0] == LowerChar(s[0]);
          } else {
            assert s[..|pat|][0] == s[0];
          }
        }
      }
      RemoveMatchesKeepsPlainPrefix(a[1..], b, pat, fold);
    }
  }

  /** A match at the start is dropped. */
  lemma RemoveMatchesDropsMatch(pat: string, b: string, fold: bool)
    requires pat != [] && MatchesAt(pat + b, pat, fold)
    ensures RemoveMatches(pat + b, pat, fold) == RemoveMatches(b, pat, fold)
  {
    assert (pat + b)[|pat|..] == b;
  }

  lemma TaggedFenceMatches(b: string)
    ensures MatchesAt(TaggedFence + b, TaggedFence, true)
  {
    assert (TaggedFence + b)[..7] == TaggedFence;
    assert ToLower(TaggedFence) == TaggedFence;
  }

  lemma BareFenceMatches(b: string)
    ensures MatchesAt(BareFence + b, BareFence, false)
  {
    assert (BareFence + b)[..3] == BareFence;
  }

  /** The pattern does not match where one of its characters differs, in either case. */
  lemma NoMatchAt(s: string, pat: string, fold: bool, k: nat)
    requires k < |pat| && k < |s| && s[k] != pat[k] && LowerChar(s[k]) != pat[k]
    ensures !MatchesAt(s, pat, fold)
  {
    if |s| >= |pat| {
      if fold {
        assert ToLower(s[..|pat|])[k] == LowerChar(s[k]);
      } else {
        assert s[..|pat|][k] == s[k];
      }
    }
  }

  /** Where the pattern does not match, the first character is kept. */
  lemma RemoveMatchesKeepsFirst(s: string, pat: string, fold: bool)
    requires pat != [] && s != [] && !MatchesAt(s, pat, fold)
    ensures RemoveMatches(s, pat, fold) == [s[0]] + RemoveMatches(s[1..], pat, fold)
  {
  }

  /** `t` begins with the letters of `json`, in any case: a fence just before it is a tagged one. */
  predicate StartsWithJsonTag(t: string) {
    |t| >= 4 && ToLower(t[..4]) == "json"
  }

  /** Text followed by a brace or a backtick begins with the tag only if the text itself does. */
  lemma TagNeedsOwnLetters(a: string, b: string)
    requires !StartsWithJsonTag(a) && b != [] && (b[0] == '{' || b[0] == '`')
    ensures !StartsWithJsonTag(a + b)
  {
    var t := a + b;
    if |t| >= 4 {
      if |a| >= 4 {
        assert t[..4] == a[..4];
      } else {
        assert ToLower(t[..4])[|a|] == LowerChar(b[0]);
      }
    }
  }

  /** A fence followed by anything but the tag is no tagged fence. */
  lemma NoTagAfterFence(t: string)
    requires !StartsWithJsonTag(t)
    ensures !MatchesAt(BareFence + t, TaggedFence, true)
  {
    var s := BareFence + t;
    if |s| >= 7 {
      assert ToLower(s[..7])[3..] == ToLower(t[..4]) by {
        forall k | 0 <= k < 4 ensures ToLower(s[..7])[3..][k] == ToLower(t[..4])[k] {
          assert s[3 + k] == t[k];
        }
      }
      assert TaggedFence[3..] == "json";
    }
  }

  /** A bare fence followed by something other than `json` survives the removal of tagged fences. */
  lemma BareFenceNotTagged(t: string)
    requires t != [] && t[0] != '`' && !StartsWithJsonTag(t)
    ensures RemoveMatches(BareFence + t, TaggedFence, true) == BareFence + RemoveMatches(t, TaggedFence, true)
  {
    var s2 := ['`'] + t;
    var s1 := ['`'] + s2;
    Backticks(t);
    assert TaggedFence[1] == '`' && TaggedFence[2] == '`';
    NoTagAfterFence(t);
    assert s1[2] == t[0];
    NoMatchAt(s1, TaggedFence, true, 2);
    NoMatchAt(s2, TaggedFence, true, 1);
    KeptBefore('`', s1, TaggedFence, true);
    KeptBefore('`', s2, TaggedFence, true);
    KeptBefore('`', t, TaggedFence, true);
    Backticks(RemoveMatches(t, TaggedFence, true));
  }

  /** The bare fence is three backticks. */
  lemma Backticks(t: string)
    ensures BareFence + t == ['`'] + (['`'] + (['`'] + t))
  {
    assert BareFence == ['`', '`', '`'];
  }

  /** A character where the pattern does not match is kept in front of the rest. */
  lemma KeptBefore(c: char, t: string, pat: string, fold: bool)
    requires pat != [] && !MatchesAt([c] + t, pat, fold)
    ensures RemoveMatches([c] + t, pat, fold) == [c] + RemoveMatches(t, pat, fold)
  {
    RemoveMatchesKeepsFirst([c] + t, pat, fold);
    assert ([c] + t)[1..] == t;
  }

  /** Cleaning only removes characters: one absent from the reply is absent afterwards. */
  lemma CleanKeepsAbsent(text: string, c: char)
    requires NoChar(text, c)
    ensures NoChar(Clean(text), c)
  {
    var s1 := RemoveMatches(text, TaggedFence, true);
    RemovalKeepsAbsent(text, TaggedFence, true, c);
    RemovalKeepsAbsent(s1, BareFence, false, c);
    TrimKeepsAbsent(RemoveMatches(s1, BareFence, false), c);
  }

  /** Removing matches only drops characters. */
  lemma RemovalKeepsAbsent(s: string, pat: string, fold: bool, c: char)
    requires pat != [] && NoChar(s, c)
    ensures NoChar(RemoveMatches(s, pat, fold), c)
  {
    var r := RemoveMatches(s, pat, fold);
    forall i | 0 <= i < |r| ensures r[i] != c { assert r[i] in s; }
  }

  /** Trimming only drops characters at the ends. */
  lemma TrimKeepsAbsent(s: string, c: char)
    requires NoChar(s, c)
    ensures NoChar(Trim(s), c)
  {
    var t := TrimStart(s);
    assert NoChar(t, c) by {
      forall i | 0 <= i < |t| ensures t[i] != c { assert t[i] == s[|s| - |t| + i]; }
    }
    var r := TrimEnd(t);
    forall i | 0 <= i < |r| ensures r[i] != c { assert r[i] == t[i]; }
  }

  /** Three backticks start at position `i` of `s`. */
  predicate FenceAt(s: string, i: int) {
    0 <= i && i + 3 <= |s| && s[i] == '`' && s[i + 1] == '`' && s[i + 2] == '`'
  }

  predicate NoFence(s: string) {
    forall i :: 0 <= i < |s| ==> !FenceAt(s, i)
  }

  /** `s` begins with two backticks. */
  predicate TwoBackticks(s: string) {
    |s| >= 2 && s[0] == '`' && s[1] == '`'
  }

  /** The bare fence matches exactly where three backticks stand. */
  lemma BareFenceAt(s: string, i: nat)
    requires i <= |s|
    ensures MatchesAt(s[i..], BareFence, false) <==> FenceAt(s, i)
  {
    assert BareFence == ['`', '`', '`'];
    if i + 3 <= |s| {
      assert s[i..][..3] == [s[i], s[i + 1], s[i + 2]];
    }
  }

  /** Text that does not begin with two backticks keeps that after the bare fences are removed: its
      first character is kept, and so is the second when the first is a backtick. */
  lemma RemovalKeepsHead(t: string)
    requires !TwoBackticks(t)
    ensures !TwoBackticks(RemoveMatches(t, BareFence, false))
  {
    if t != [] {
      BareFenceAt(t, 0);
      assert t[0..] == t;
      RemoveMatchesKeepsFirst(t, BareFence, false);
      if t[0] == '`' && |t| >= 2 {
        var u := t[1..];
        BareFenceAt(u, 0);
        assert u[0..] == u;
        RemoveMatchesKeepsFirst(u, BareFence, false);
      }
    }
  }

  /** After the global removal of bare fences no three backticks remain: each run of backticks keeps
      fewer than three, and runs are never joined since only backticks are removed. */
  lemma {:induction false} RemovalLeavesNoFence(s: string)
    ensures NoFence(RemoveMatches(s, BareFence, false))
    decreases |s|
  {
    if s != [] {
      BareFenceAt(s, 0);
      assert s[0..] == s;
      if MatchesAt(s, BareFence, false) {
        RemovalLeavesNoFence(s[3..]);
      } else {
        var rest := RemoveMatches(s[1..], BareFence, false);
        RemovalLeavesNoFence(s[1..]);
        RemoveMatchesKeepsFirst(s, BareFence, false);
        var r := [s[0]] + rest;
        forall i | 0 <= i < |r| ensures !FenceAt(r, i) {
          if i == 0 {
            if s[0] == '`' {
              RemovalKeepsHead(s[1..]);
            }
          } else {
            assert !FenceAt(rest, i - 1);
            if i + 3 <= |r| {
              assert r[i] == rest[i - 1] && r[i + 1] == rest[i] && r[i + 2] == rest[i + 1];
            }
          }
        }
      }
    }
  }

  /** A slice of text without three backticks has none either. */
  lemma NoFenceSlice(s: string, a: nat, b: nat)
    requires NoFence(s) && a <= b <= |s|
    ensures NoFence(s[a..b])
  {
    var t := s[a..b];
    forall i | 0 <= i < |t| ensures !FenceAt(t, i) {
      assert !FenceAt(s, a + i);
      if i + 3 <= |t| {
        assert t[i] == s[a + i] && t[i + 1] == s[a + i + 1] && t[i + 2] == s[a + i + 2];
      }
    }
  }

  /** No fence survives cleaning: the cleaned reply holds three backticks nowhere. */
  lemma CleanHasNoFence(responseText: string)
    ensures var r := Clean(responseText);
      forall i :: 0 <= i <= |r| ==> !MatchesAt(r[i..], BareFence, false)
  {
    var s := RemoveMatches(RemoveMatches(responseText, TaggedFence, true), BareFence, false);
    RemovalLeavesNoFence(RemoveMatches(responseText, TaggedFence, true));
    TrimKeepsNoFence(s);
    var r := Clean(responseText);
    forall i | 0 <= i <= |r| ensures !MatchesAt(r[i..], BareFence, false) {
      BareFenceAt(r, i);
    }
  }

  /** Trimming takes a slice, so it brings no three backticks together. */
  lemma TrimKeepsNoFence(s: string)
    requires NoFence(s)
    ensures NoFence(Trim(s))
  {
    var a := TrimStart(s);
    NoFenceSlice(s, |s| - |a|, |s|);
    assert s[|s| - |a|..|s|] == a;
    var r := TrimEnd(a);
    NoFenceSlice(a, 0, |r|);
    assert a[0..|r|] == r;
  }

  // ---------------------------------------------------------------------------------------------
  // Finding the JSON object

  /** `s.indexOf(c)`. */
  function IndexOf(s: string, c: char): (r: int)
    ensures -1 <= r < |s|
    ensures r == -1 <==> NoChar(s, c)
    ensures r >= 0 ==> s[r] == c && forall k :: 0 <= k < r ==> s[k] != c
  {
    if s == [] then -1
    else if s[0] == c then 0
    else
      var k := IndexOf(s[1..], c);
      if k == -1 then -1 else k + 1
  }

  /** `s.lastIndexOf(c)`. */
  function LastIndexOf(s: string, c: char): (r: int)
    ensures -1 <= r < |s|
    ensures r == -1 <==> NoChar(s, c)
    ensures r >= 0 ==> s[r] == c && forall k :: r < k < |s| ==> s[k] != c
  {
    if s == [] then -1
    else if s[|s| - 1] == c then |s| - 1
    else LastIndexOf(s[..|s| - 1], c)
  }

  /** A match of `\{[\s\S]*\}`: `s[start..end]` opens and closes with a brace. */
  datatype Span = Span(start: nat, end: nat)

  predicate BraceSpan(s: string, i: nat, j: nat) {
    i + 2 <= j <= |s| && s[i] == '{' && s[j - 1] == '}'
  }

  /** The greedy `[\s\S]*` after an opening brace at `i` first takes everything and then gives back
      characters until a closing brace follows: the ends `j`, `j - 1`, ... are tried in turn. */
  function GreedyEnd(s: string, i: nat, j: nat): (r: Option<nat>)
    requires i < |s| && j <= |s|
    ensures r.Some? ==> BraceSpan(s, i, r.value) || s[i] != '{'
    ensures r.Some? ==> i + 2 <= r.value <= j && s[r.value - 1] == '}'
    ensures r.Some? ==> forall k :: r.value <= k < j ==> s[k] != '}'
    ensures r.None? ==> forall k :: i + 1 <= k < j ==> s[k] != '}'
    decreases j
  {
    if j < i + 2 then None
    else if s[j - 1] == '}' then Some(j)
    else GreedyEnd(s, i, j - 1)
  }

  /** The regular expression engine's search: start positions are tried left to right, and the first
      one at which the pattern matches gives the match. */
  function MatchFrom(s: string, i: nat): (r: Option<Span>)
    ensures r.Some? ==> i <= r.value.start && BraceSpan(s, r.value.start, r.value.end)
    ensures r.Some? ==> forall a: nat, b: nat :: i <= a && BraceSpan(s, a, b) ==>
      (r.value.start < a || (r.value.start == a && b <= r.value.end))
    ensures r.None? ==> forall a: nat, b: nat :: i <= a ==> !BraceSpan(s, a, b)
    decreases |s| - i
  {
    if i >= |s| then None
    else if s[i] == '{' then
      match GreedyEnd(s, i, |s|)
      case Some(j) => Some(Span(i, j))
      case None => MatchFrom(s, i + 1)
    else MatchFrom(s, i + 1)
  }

  /** `s.match(/\{[\s\S]*\}/)`: the leftmost match, and the longest one starting there. */
  function RegexMatch(s: string): (r: Option<Span>)
    ensures r.Some? ==> BraceSpan(s, r.value.start, r.value.end)
    ensures r.Some? ==> forall a: nat, b: nat :: BraceSpan(s, a, b) ==>
      (r.value.start < a || (r.value.start == a && b <= r.value.end))
    ensures r.None? ==> forall a: nat, b: nat :: !BraceSpan(s, a, b)
  {
    MatchFrom(s, 0)
  }

  /** The regular expression matches exactly when some opening brace is followed by a closing one,
      and its match runs from the first opening brace to the last closing brace. */
  lemma RegexMatchIsFirstToLast(s: string)
    ensures var first, last := IndexOf(s, '{'), LastIndexOf(s, '}');
      RegexMatch(s) == if 0 <= first < last then Some(Span(first, last + 1)) else None
  {
    var first, last := IndexOf(s, '{'), LastIndexOf(s, '}');
    var m := RegexMatch(s);
    if m.Some? {
      var a, b := m.value.start, m.value.end;
      assert s[a] == '{' && s[b - 1] == '}';
      assert first <= a && b - 1 <= last;
      assert BraceSpan(s, first, last + 1);
    } else if 0 <= first < last {
      assert BraceSpan(s, first, last + 1);
    }
  }

  /** Whenever the regular expression finds nothing, the `indexOf`/`lastIndexOf` fallback finds
      nothing either: the fallback never recovers a reply. */
  lemma FallbackNeverRecovers(s: string)
    requires RegexMatch(s).None?
    ensures var first, last := IndexOf(s, '{'), LastIndexOf(s, '}');
      first == -1 || last == -1 || first >= last
  {
    RegexMatchIsFirstToLast(s);
  }

  /** `s.substring(start, end)`: both bounds are clamped to the string, and swapped when out of
      order. */
  function Substring(s: string, start: int, end: int): (r: string)
    ensures 0 <= start <= end <= |s| ==> r == s[start..end]
  {
    var a := if start < 0 then 0 else if start > |s| then |s| else start;
    var b := if end < 0 then 0 else if end > |s| then |s| else end;
    if a <= b then s[a..b] else s[b..a]
  }

  /** The text handed to `JSON.parse`: the regular expression's match or, failing that, the span
      between the first opening and the last closing brace. */
  function Candidate(s: string): (r: Option<string>)
    ensures r.Some? <==> 0 <= IndexOf(s, '{') < LastIndexOf(s, '}')
    ensures r.Some? ==> r.value == s[IndexOf(s, '{')..LastIndexOf(s, '}') + 1]
    ensures r.Some? ==> |r.value| >= 2 && r.value[0] == '{' && r.value[|r.value| - 1] == '}'
  {
    RegexMatchIsFirstToLast(s);
    match RegexMatch(s)
    case Some(m) => Some(s[m.start..m.end])
    case None =>
      var first := IndexOf(s, '{');
      var last := LastIndexOf(s, '}');
      if first == -1 || last == -1 || first >= last then None
      else Some(Substring(s, first, last + 1))
  }

  lemma IndexOfIs(s: string, c: char, k: nat)
    requires k < |s| && s[k] == c && forall j :: 0 <= j < k ==> s[j] != c
    ensures IndexOf(s, c) == k
  {
  }

  lemma LastIndexOfIs(s: string, c: char, k: nat)
    requires k < |s| && s[k] == c && forall j :: k < j < |s| ==> s[j] != c
    ensures LastIndexOf(s, c) == k
  {
  }

  predicate NoBraces(s: string) {
    NoChar(s, '{') && NoChar(s, '}')
  }

  /** A slice of brace-free text is brace-free. */
  lemma NoBracesSlice(s: string, i: nat, j: nat)
    requires NoBraces(s) && i <= j <= |s|
    ensures NoBraces(s[i..j])
  {
    forall k | 0 <= k < j - i ensures s[i..j][k] != '{' && s[i..j][k] != '}' { assert s[i..j][k] == s[i + k]; }
  }

  /** An object between brace-free prose is cut out exactly. */
  lemma CandidateBetweenProse(a: string, o: string, b: string)
    requires NoBraces(a) && NoBraces(b)
    requires |o| >= 2 && o[0] == '{' && o[|o| - 1] == '}'
    ensures Candidate(a + o + b) == Some(o)
  {
    var s := a + o + b;
    assert s[|a|] == '{' && s[|a| + |o| - 1] == '}';
    forall k | 0 <= k < |a| ensures s[k] != '{' { assert s[k] == a[k]; }
    forall k | |a| + |o| <= k < |s| ensures s[k] != '}' { assert s[k] == b[k - |a| - |o|]; }
    IndexOfIs(s, '{', |a|);
    LastIndexOfIs(s, '}', |a| + |o| - 1);
    assert s[|a|..|a| + |o|] == o;
  }

  /** Several objects in one reply give one candidate from the first object's opening brace to the
      last one's closing brace, with the prose between them included. */
  lemma CandidateSpansAllObjects(p: string, o1: string, m: string, o2: string, q: string)
    requires NoBraces(p) && NoBraces(q)
    requires |o1| >= 2 && o1[0] == '{' && |o2| >= 2 && o2[|o2| - 1] == '}'
    ensures Candidate(p + o1 + m + o2 + q) == Some(o1 + m + o2)
  {
    var o := o1 + m + o2;
    assert p + o1 + m + o2 + q == p + o + q;
    assert o[0] == o1[0] && o[|o| - 1] == o2[|o2| - 1];
    CandidateBetweenProse(p, o, q);
  }

  // ---------------------------------------------------------------------------------------------
  // The whole reply

  /** `hfToken`: the token from the environment, trimmed; an absent or blank token is missing. */
  predicate TokenConfigured(token: Option<string>) {
    token.Some? && !IsBlank(token.value)
  }

  /** A configured token and a reply that is not empty: the reply goes on to be cleaned and parsed. */
  predicate Replied(token: Option<string>, responseText: Option<string>) {
    TokenConfigured(token) && responseText.Some? && responseText.value != []
  }

  /** The reply's candidate exists and `parse` rejects it. */
  predicate ParseFails<J>(text: string, parse: string -> Option<J>) {
    var c := Candidate(Clean(text));
    c.Some? && parse(c.value).None?
  }

  /** `parseInvoiceWithAI` after the model has replied: the checks on the token and the reply, then
      cleaning, cutting out the object and parsing it. */
  function ParseReply<J>(token: Option<string>, responseText: Option<string>, parse: string -> Option<J>): (r: Result<J, ParseError>)
    ensures r.Ok? ==> TokenConfigured(token) && responseText.Some? && responseText.value != []
    ensures r.Ok? ==> Candidate(Clean(responseText.value)).Some?
    ensures r.Ok? ==> parse(Candidate(Clean(responseText.value)).value) == Some(r.value)
    ensures !TokenConfigured(token) <==> r == Err(TokenMissing)
    ensures r == Err(EmptyResponse) <==> TokenConfigured(token) && (responseText.None? || responseText.value == [])
    ensures r == Err(JsonNotFound) <==> Replied(token, responseText) && Candidate(Clean(responseText.value)).None?
    ensures r == Err(InvalidJson) <==> Replied(token, responseText) && ParseFails(responseText.value, parse)
    ensures r.Ok? <==> Replied(token, responseText) && !ParseFails(responseText.value, parse) && Candidate(Clean(responseText.value)).Some?
  {
    if !TokenConfigured(token) then Err(TokenMissing)
    else if responseText.None? || responseText.value == [] then Err(EmptyResponse)
    else
      match Candidate(Clean(responseText.value))
      case None => Err(JsonNotFound)
      case Some(c) =>
        match parse(c)
        case None => Err(InvalidJson)
        case Some(v) => Ok(v)
  }

  /** A reply with no opening brace, such as plain prose, is rejected before parsing. */
  lemma NoObjectNotFound<J>(token: Option<string>, text: string, parse: string -> Option<J>)
    requires TokenConfigured(token) && text != [] && NoChar(text, '{')
    ensures ParseReply(token, Some(text), parse) == Err(JsonNotFound)
  {
    CleanKeepsAbsent(text, '{');
    assert Candidate(Clean(text)) == None;
  }

  /** An empty or whitespace-only reply is rejected. */
  lemma BlankReplyRejected<J>(token: Option<string>, text: string, parse: string -> Option<J>)
    requires TokenConfigured(token) && AllWhitespace(text)
    ensures ParseReply(token, Some(text), parse).Err?
  {
    if text != [] {
      assert NoChar(text, '{') by {
        forall i | 0 <= i < |text| ensures text[i] != '{' { assert IsJsWhitespace(text[i]); }
      }
      NoObjectNotFound(token, text, parse);
    }
  }

  predicate Prose(s: string) {
    NoBraces(s) && NoChar(s, '`')
  }

  /** Removing both kinds of fence from a fenced object leaves the object between brace-free text. */
  lemma CleanedFenceBetweenProse(a: string, o: string, x: string) returns (y: string)
    requires Prose(a) && NoChar(o, '`') && NoBraces(x)
    ensures NoBraces(y) && RemoveMatches(a + o + x, BareFence, false) == a + o + y
  {
    assert NoChar(a + o, '`') by {
      forall i | 0 <= i < |a + o| ensures (a + o)[i] != '`' {
        if i < |a| { assert (a + o)[i] == a[i]; } else { assert (a + o)[i] == o[i - |a|]; }
      }
    }
    RemoveMatchesKeepsPlainPrefix(a + o, x, BareFence, false);
    y := RemoveMatches(x, BareFence, false);
    assert NoBraces(y) by {
      forall i | 0 <= i < |y| ensures y[i] != '{' && y[i] != '}' { assert y[i] in x; }
    }
  }

  /** After cleaning, an object between brace-free text is what remains to be cut out. */
  lemma TrimmedBetweenProse(a: string, o: string, y: string)
    requires NoBraces(a) && NoBraces(y)
    requires |o| >= 2 && o[0] == '{' && o[|o| - 1] == '}'
    ensures Candidate(Trim(a + o + y)) == Some(o)
  {
    var ta, ty := TrimmedParts(a, o, y);
    CandidateBetweenProse(ta, o, ty);
  }

  /** Trimming text around an object trims only the brace-free text on either side. */
  lemma TrimmedParts(a: string, o: string, y: string) returns (ta: string, ty: string)
    requires NoBraces(a) && NoBraces(y)
    requires |o| >= 2 && o[0] == '{' && o[|o| - 1] == '}'
    ensures NoBraces(ta) && NoBraces(ty) && Trim(a + o + y) == ta + o + ty
  {
    assert !IsJsWhitespace('{') && !IsJsWhitespace('}');
    TrimAround(a, o, y);
    ta, ty := TrimStart(a), TrimEnd(y);
    TrimStartNoBraces(a);
    TrimEndNoBraces(y);
  }

  lemma TrimStartNoBraces(a: string)
    requires NoBraces(a)
    ensures NoBraces(TrimStart(a))
  {
    var ta := TrimStart(a);
    NoBracesSlice(a, |a| - |ta|, |a|);
    assert a[|a| - |ta|..|a|] == ta;
  }

  lemma TrimEndNoBraces(y: string)
    requires NoBraces(y)
    ensures NoBraces(TrimEnd(y))
  {
    var ty := TrimEnd(y);
    NoBracesSlice(y, 0, |ty|);
    assert y[0..|ty|] == ty;
  }

  /** The reply of the "markdown code block" case: prose, then a fence tagged `json` around the object
      and the text on either side of it inside the fence (a line break, say), then anything without
      braces. The object is what gets parsed. */
  lemma TaggedFenceReply(p: string, u: string, o: string, v: string, q: string)
    requires Prose(p) && Prose(u) && Prose(v) && NoBraces(q) && NoChar(o, '`')
    requires |o| >= 2 && o[0] == '{' && o[|o| - 1] == '}'
    ensures Candidate(Clean(p + TaggedFence + u + o + v + BareFence + q)) == Some(o)
  {
    var x := TaggedFenceRemoved(p, u, o, v, q);
    ProseAppend(p, u);
    var y := CleanedFenceBetweenProse(p + u, o, x);
    TrimmedBetweenProse(p + u, o, y);
  }

  /** Removing the tagged fence leaves the prose, the fenced text and brace-free rest. */
  lemma TaggedFenceRemoved(p: string, u: string, o: string, v: string, q: string) returns (x: string)
    requires Prose(p) && Prose(u) && Prose(v) && NoBraces(q) && NoChar(o, '`')
    ensures NoBraces(x)
    ensures RemoveMatches(p + TaggedFence + u + o + v + BareFence + q, TaggedFence, true) == p + u + o + x
  {
    var body, rest := u + o + v, BareFence + q;
    NoCharAppend(u, o, '`');
    NoCharAppend(u + o, v, '`');
    AfterClosingFence(v, q);
    x := v + RemoveMatches(rest, TaggedFence, true);
    calc {
      RemoveMatches(p + TaggedFence + u + o + v + BareFence + q, TaggedFence, true);
      == { TaggedRegrouped(p, u, o, v, q); }
      RemoveMatches(p + (TaggedFence + (body + rest)), TaggedFence, true);
      == { TaggedOpeningDropped(p, body, rest); }
      p + (body + RemoveMatches(rest, TaggedFence, true));
      == { Regrouped(p, u, o, v, RemoveMatches(rest, TaggedFence, true)); }
      p + u + o + x;
    }
  }

  lemma TaggedRegrouped(p: string, u: string, o: string, v: string, q: string)
    ensures p + TaggedFence + u + o + v + BareFence + q == p + (TaggedFence + ((u + o + v) + (BareFence + q)))
  {
  }

  lemma Regrouped(p: string, u: string, o: string, v: string, y: string)
    ensures p + ((u + o + v) + y) == p + u + o + (v + y)
  {
  }

  /** What follows the object in a tagged fence keeps no brace once tagged fences are removed. */
  lemma AfterClosingFence(v: string, q: string)
    requires NoBraces(v) && NoBraces(q)
    ensures NoBraces(v + RemoveMatches(BareFence + q, TaggedFence, true))
  {
    var rest := BareFence + q;
    var x0 := RemoveMatches(rest, TaggedFence, true);
    assert NoBraces(rest) by {
      forall i | 0 <= i < |rest| ensures rest[i] != '{' && rest[i] != '}' {
        if i >= 3 { assert rest[i] == q[i - 3]; }
      }
    }
    assert NoBraces(x0) by {
      forall i | 0 <= i < |x0| ensures x0[i] != '{' && x0[i] != '}' { assert x0[i] in rest; }
    }
    NoCharAppend(v, x0, '{');
    NoCharAppend(v, x0, '}');
  }

  /** The tagged fence after backtick-free prose is dropped, and backtick-free text after it kept. */
  lemma TaggedOpeningDropped(p: string, body: string, rest: string)
    requires NoChar(p, '`') && NoChar(body, '`')
    ensures RemoveMatches(p + (TaggedFence + (body + rest)), TaggedFence, true)
      == p + (body + RemoveMatches(rest, TaggedFence, true))
  {
    RemoveMatchesKeepsPlainPrefix(p, TaggedFence + (body + rest), TaggedFence, true);
    TaggedFenceMatches(body + rest);
    RemoveMatchesDropsMatch(TaggedFence, body + rest, true);
    RemoveMatchesKeepsPlainPrefix(body, rest, TaggedFence, true);
  }

  /** Concatenating text without a character gives text without it. */
  lemma NoCharAppend(a: string, b: string, c: char)
    requires NoChar(a, c) && NoChar(b, c)
    ensures NoChar(a + b, c)
  {
    forall i | 0 <= i < |a + b| ensures (a + b)[i] != c {
      if i < |a| { assert (a + b)[i] == a[i]; } else { assert (a + b)[i] == b[i - |a|]; }
    }
  }

  /** In a plain-fenced reply, removing tagged fences only touches what follows the closing fence. */
  lemma BareFenceReplyUntagged(p: string, wo: string, q: string) returns (x: string)
    requires NoChar(p, '`') && NoChar(wo, '`') && NoBraces(q)
    requires wo != [] && !StartsWithJsonTag(wo)
    ensures NoBraces(x)
    ensures RemoveMatches(p + BareFence + wo + BareFence + q, TaggedFence, true) == p + (BareFence + (wo + x))
  {
    var rest := BareFence + q;
    var t := wo + rest;
    assert p + BareFence + wo + BareFence + q == p + (BareFence + t);
    assert t[0] == wo[0];
    TagNeedsOwnLetters(wo, rest);
    assert NoBraces(rest) by {
      forall i | 0 <= i < |rest| ensures rest[i] != '{' && rest[i] != '}' {
        if i >= 3 { assert rest[i] == q[i - 3]; }
      }
    }
    RemoveMatchesKeepsPlainPrefix(p, BareFence + t, TaggedFence, true);
    BareFenceNotTagged(t);
    RemoveMatchesKeepsPlainPrefix(wo, rest, TaggedFence, true);
    x := RemoveMatches(rest, TaggedFence, true);
    assert NoBraces(x) by {
      forall i | 0 <= i < |x| ensures x[i] != '{' && x[i] != '}' { assert x[i] in rest; }
    }
  }

  /** Removing bare fences then drops the opening fence. */
  lemma BareFenceReplyUnfenced(p: string, wo: string, x: string)
    requires NoChar(p, '`')
    ensures RemoveMatches(p + (BareFence + (wo + x)), BareFence, false) == p + RemoveMatches(wo + x, BareFence, false)
  {
    RemoveMatchesKeepsPlainPrefix(p, BareFence + (wo + x), BareFence, false);
    BareFenceMatches(wo + x);
    RemoveMatchesDropsMatch(BareFence, wo + x, false);
  }

  /** What stands inside a plain fence: no backtick, and no tag, since the object begins with a brace. */
  lemma FencedBody(w: string, o: string, v: string)
    requires NoChar(w, '`') && NoChar(o, '`') && NoChar(v, '`') && !StartsWithJsonTag(w) && o != [] && o[0] == '{'
    ensures NoChar(w + o + v, '`') && w + o + v != [] && !StartsWithJsonTag(w + o + v)
  {
    NoCharAppend(w, o, '`');
    NoCharAppend(w + o, v, '`');
    TagNeedsOwnLetters(w, o + v);
    assert w + (o + v) == w + o + v;
  }

  lemma ProseAppend(a: string, b: string)
    requires Prose(a) && Prose(b)
    ensures Prose(a + b)
  {
    NoCharAppend(a, b, '`');
    NoCharAppend(a, b, '{');
    NoCharAppend(a, b, '}');
  }

  /** In a plain-fenced reply both removals leave the prose, the object and brace-free text. */
  lemma BareFencesRemoved(p: string, w: string, o: string, v: string, q: string) returns (y: string)
    requires Prose(p) && Prose(w) && Prose(v) && NoBraces(q) && NoChar(o, '`')
    requires !StartsWithJsonTag(w) && o != [] && o[0] == '{'
    ensures NoBraces(y)
    ensures RemoveMatches(RemoveMatches(p + BareFence + w + o + v + BareFence + q, TaggedFence, true), BareFence, false)
      == p + w + o + y
  {
    var x := TaggedPass(p, w, o, v, q);
    ProseAppend(p, w);
    y := CleanedFenceBetweenProse(p + w, o, x);
    OpeningFenceDropped(p, w, o, x);
  }

  /** Removing tagged fences from a plain-fenced reply only touches what follows the closing fence. */
  lemma TaggedPass(p: string, w: string, o: string, v: string, q: string) returns (x: string)
    requires Prose(p) && Prose(w) && Prose(v) && NoBraces(q) && NoChar(o, '`')
    requires !StartsWithJsonTag(w) && o != [] && o[0] == '{'
    ensures NoBraces(x)
    ensures RemoveMatches(p + BareFence + w + o + v + BareFence + q, TaggedFence, true) == p + (BareFence + (w + o + x))
  {
    FencedBody(w, o, v);
    var x0 := BareFenceReplyUntagged(p, w + o + v, q);
    assert p + BareFence + w + o + v + BareFence + q == p + BareFence + (w + o + v) + BareFence + q;
    x := v + x0;
    NoCharAppend(v, x0, '{');
    NoCharAppend(v, x0, '}');
    assert w + o + v + x0 == w + o + x;
  }

  /** Removing bare fences drops the opening fence after the leading prose. */
  lemma OpeningFenceDropped(p: string, w: string, o: string, x: string)
    requires NoChar(p, '`')
    ensures RemoveMatches(p + (BareFence + (w + o + x)), BareFence, false) == RemoveMatches(p + w + o + x, BareFence, false)
  {
    calc {
      RemoveMatches(p + (BareFence + (w + o + x)), BareFence, false);
      == { BareFenceReplyUnfenced(p, w + o, x); }
      p + RemoveMatches(w + o + x, BareFence, false);
      == { RemoveMatchesKeepsPlainPrefix(p, w + o + x, BareFence, false); }
      RemoveMatches(p + (w + o + x), BareFence, false);
      == { assert p + (w + o + x) == p + w + o + x; }
      RemoveMatches(p + w + o + x, BareFence, false);
    }
  }

  /** The reply of the "plain code block" case: the object inside a fence without a language tag,
      with text on either side of it inside the fence (the text `w` before the object does not begin
      with `json`, which would make the fence a tagged one), then anything without braces. The object
      is what gets parsed. */
  lemma BareFenceReply(p: string, w: string, o: string, v: string, q: string)
    requires Prose(p) && Prose(w) && Prose(v) && NoBraces(q) && NoChar(o, '`')
    requires !StartsWithJsonTag(w)
    requires |o| >= 2 && o[0] == '{' && o[|o| - 1] == '}'
    ensures Candidate(Clean(p + BareFence + w + o + v + BareFence + q)) == Some(o)
  {
    var y := BareFencesRemoved(p, w, o, v, q);
    ProseAppend(p, w);
    TrimmedBetweenProse(p + w, o, y);
  }

  /** The "prefix text" and "suffix text" cases: an object in prose without fences or braces. */
  lemma PlainReply(p: string, o: string, q: string)
    requires Prose(p) && Prose(q) && NoChar(o, '`')
    requires |o| >= 2 && o[0] == '{' && o[|o| - 1] == '}'
    ensures Candidate(Clean(p + o + q)) == Some(o)
  {
    var reply := p + o + q;
    NoCharAppend(p, o, '`');
    NoCharAppend(p + o, q, '`');
    assert reply + [] == reply;
    RemoveMatchesKeepsPlainPrefix(reply, [], TaggedFence, true);
    RemoveMatchesKeepsPlainPrefix(reply, [], BareFence, false);
    TrimmedBetweenProse(p, o, q);
  }

  /** A reply whose object is cut out exactly is accepted precisely when the object parses. */
  lemma ReplyOfObject<J>(token: Option<string>, text: string, o: string, parse: string -> Option<J>)
    requires TokenConfigured(token) && Candidate(Clean(text)) == Some(o)
    ensures ParseReply(token, Some(text), parse) == if parse(o).Some? then Ok(parse(o).value) else Err(InvalidJson)
  {
  }

  /** The "markdown code block" case end to end: the object inside the fence decides the outcome. */
  lemma TaggedFenceReplyParsed<J>(token: Option<string>, p: string, u: string, o: string, v: string, q: string,
                                  parse: string -> Option<J>)
    requires TokenConfigured(token) && Prose(p) && Prose(u) && Prose(v) && NoBraces(q) && NoChar(o, '`')
    requires |o| >= 2 && o[0] == '{' && o[|o| - 1] == '}'
    ensures ParseReply(token, Some(p + TaggedFence + u + o + v + BareFence + q), parse)
      == if parse(o).Some? then Ok(parse(o).value) else Err(InvalidJson)
  {
    TaggedFenceReply(p, u, o, v, q);
    ReplyOfObject(token, p + TaggedFence + u + o + v + BareFence + q, o, parse);
  }

  /** The "markdown code block" reply as the model writes it: the tagged fence and the closing fence
      each on a line of their own around the object. */
  lemma LineBrokenTaggedFence(p: string, o: string)
    requires Prose(p) && NoChar(o, '`')
    requires |o| >= 2 && o[0] == '{' && o[|o| - 1] == '}'
    ensures Candidate(Clean(p + TaggedFence + "\n" + o + "\n" + BareFence)) == Some(o)
  {
    var reply := p + TaggedFence + "\n" + o + "\n" + BareFence;
    LineBreakIsProse();
    TaggedFenceReply(p, "\n", o, "\n", "");
    assert reply + "" == reply;
  }

  /** The "plain code block" reply as the model writes it: the bare fences on lines of their own. */
  lemma LineBrokenBareFence(p: string, o: string)
    requires Prose(p) && NoChar(o, '`')
    requires |o| >= 2 && o[0] == '{' && o[|o| - 1] == '}'
    ensures Candidate(Clean(p + BareFence + "\n" + o + "\n" + BareFence)) == Some(o)
  {
    var reply := p + BareFence + "\n" + o + "\n" + BareFence;
    LineBreakIsProse();
    BareFenceReply(p, "\n", o, "\n", "");
    assert reply + "" == reply;
  }

  lemma LineBreakIsProse()
    ensures Prose("\n") && NoBraces("") && !StartsWithJsonTag("\n")
  {
  }
}
