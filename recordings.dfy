/** The helpers of the recordings page: how long a recording lasted, and how
    a recording URL becomes a YouTube embed URL. Timestamps are
    milliseconds; a missing or empty timestamp is `None`. */
module Recordings {
  import opened Js
  import opened Text

  // -------------------------------------------------------------------
  // formatDuration
  // -------------------------------------------------------------------

  /** `Math.round(diff / 60000)`: the nearest whole minute, halves upward. */
  function RoundToMinutes(diff: int): int {
    (2 * diff + 60000) / 120000
  }

  /** The rounded minute count is within half a minute of the duration,
      a duration of exactly half a minute more rounding up. */
  lemma RoundToMinutesNearest(diff: int)
    ensures RoundToMinutes(diff) * 60000 - 30000 <= diff < RoundToMinutes(diff) * 60000 + 30000
  {
  }

  /** `Math.max(1, Math.round(diff / 60000))`. */
  function Minutes(diff: int): (m: int)
    ensures m >= 1
    ensures m == 1 || m * 60000 - 30000 <= diff < m * 60000 + 30000
    ensures diff >= 90000 ==> m > 1
  {
    RoundToMinutesNearest(diff);
    if RoundToMinutes(diff) >= 1 then RoundToMinutes(diff) else 1
  }

  /** The hours and leftover minutes of a minute count. */
  function HoursAndMinutes(minutes: nat): (r: (nat, nat))
    ensures r.0 * 60 + r.1 == minutes && r.1 < 60
  {
    (minutes / 60, minutes % 60)
  }

  /** `formatDuration(start, end)`: "" without both timestamps, otherwise
      "Hh Mm" from an hour on and "Mm" below. */
  function FormatDuration(start: Option<int>, end: Option<int>): (r: string)
    ensures start.None? || end.None? ==> r == ""
    ensures start.Some? && end.Some? ==>
      var minutes := Minutes(end.value - start.value);
      var (h, m) := HoursAndMinutes(minutes);
      r == if h > 0 then NatToString(h) + "h " + NatToString(m) + "m" else NatToString(minutes) + "m"
  {
    if start.None? || end.None? then ""
    else
      var minutes := Minutes(end.value - start.value);
      var (h, m) := HoursAndMinutes(minutes);
      if h > 0 then NatToString(h) + "h " + NatToString(m) + "m" else NatToString(minutes) + "m"
  }

  /** A recording never shows zero minutes: empty, reversed and short ones
      show "1m". */
  lemma ShortRecordingsShowOneMinute(start: int, end: int)
    requires end - start < 90000
    ensures FormatDuration(Some(start), Some(end)) == "1m"
  {
    assert Minutes(end - start) == 1;
  }

  /** From an hour on, both parts appear and the hours are the whole hours
      of the rounded minute count. */
  lemma LongRecordingsShowHours(start: int, end: int)
    requires end - start >= 3600000 - 30000
    ensures var minutes := Minutes(end - start);
      minutes >= 60
      && FormatDuration(Some(start), Some(end))
         == NatToString(minutes / 60) + "h " + NatToString(minutes % 60) + "m"
  {
    RoundToMinutesNearest(end - start);
  }

  // -------------------------------------------------------------------
  // getEmbedUrl / isYouTubeUrl
  // -------------------------------------------------------------------

  /** `[a-zA-Z0-9_-]`. */
  predicate IsIdChar(c: char) {
    IsUpperAscii(c) || IsLowerAscii(c) || IsDigit(c) || c == '_' || c == '-'
  }

  /** The greedy `([a-zA-Z0-9_-]+)` group: the longest run of id characters
      at the start of `s`. */
  function IdRun(s: string): (r: string)
    ensures StartsWith(s, r)
    ensures forall i :: 0 <= i < |r| ==> IsIdChar(r[i])
    ensures |r| < |s| ==> !IsIdChar(s[|r|])
  {
    if s == [] || !IsIdChar(s[0]) then [] else [s[0]] + IdRun(s[1..])
  }

  const WatchPrefix := "youtube.com/watch?v="
  const ShortPrefix := "youtu.be/"
  const EmbedMarker := "youtube.com/embed/"
  const EmbedBase := "https://www." + EmbedMarker

  /** The pattern tried at the start of `s`: either prefix followed by at
      least one id character gives the id run. */
  function MatchHere(s: string): (r: Option<string>)
    ensures r.Some? ==> r.value != [] && forall i :: 0 <= i < |r.value| ==> IsIdChar(r.value[i])
  {
    if StartsWith(s, WatchPrefix) && IdRun(s[|WatchPrefix|..]) != [] then Some(IdRun(s[|WatchPrefix|..]))
    else if StartsWith(s, ShortPrefix) && IdRun(s[|ShortPrefix|..]) != [] then Some(IdRun(s[|ShortPrefix|..]))
    else None
  }

  /** `s.match(pattern)[1]`: the group of the leftmost match. */
  function FirstMatch(s: string): (r: Option<string>)
    ensures r.Some? ==> exists i :: 0 <= i <= |s| && MatchHere(s[i..]) == r
                          && forall j :: 0 <= j < i ==> MatchHere(s[j..]).None?
    ensures r.None? ==> forall i :: 0 <= i <= |s| ==> MatchHere(s[i..]).None?
    decreases |s|
  {
    if MatchHere(s).Some? then
      assert s[0..] == s;
      MatchHere(s)
    else if s == [] then None
    else
      var r := FirstMatch(s[1..]);
      assert forall i :: 1 <= i <= |s| ==> s[i..] == s[1..][i - 1..];
      r
  }

  /** `getEmbedUrl(url)`. */
  function GetEmbedUrl(url: string): (r: Option<string>)
    ensures url == "" ==> r.None?
  {
    if url == [] then None
    else match FirstMatch(url)
      case Some(id) => Some(EmbedBase + id)
      case None => if Contains(url, EmbedMarker) then Some(url) else None
  }

  /** `isYouTubeUrl(url)`. */
  predicate IsYouTubeUrl(url: string) {
    Contains(url, "youtube.com") || Contains(url, "youtu.be")
  }

  /** The three outcomes of `getEmbedUrl`: the leftmost watch or short link
      becomes an embed URL of its id; failing that, an embed URL is kept
      as it is; anything else gives null. */
  lemma GetEmbedUrlCases(url: string)
    ensures url != "" && FirstMatch(url).Some? ==> GetEmbedUrl(url) == Some(EmbedBase + FirstMatch(url).value)
    ensures url != "" && FirstMatch(url).None? && Contains(url, EmbedMarker) ==> GetEmbedUrl(url) == Some(url)
    ensures GetEmbedUrl(url).None? <==> url == "" || (FirstMatch(url).None? && !Contains(url, EmbedMarker))
  {
  }

  /** Whatever `getEmbedUrl` accepts, `isYouTubeUrl` accepts too. */
  lemma EmbedUrlIsYouTube(url: string)
    requires GetEmbedUrl(url).Some?
    ensures IsYouTubeUrl(url)
  {
    if FirstMatch(url).Some? {
      var i :| 0 <= i <= |url| && MatchHere(url[i..]) == FirstMatch(url);
      MatchAtIsYouTube(url, i);
    } else {
      assert Contains(url, EmbedMarker);
      assert OccursAt(EmbedMarker, "youtube.com", 0);
      ContainsAt(EmbedMarker, "youtube.com", 0);
      ContainsTrans(url, EmbedMarker, "youtube.com");
    }
  }

  /** A match of the pattern anywhere in the URL names a YouTube host. */
  lemma MatchAtIsYouTube(url: string, i: int)
    requires 0 <= i <= |url| && MatchHere(url[i..]).Some?
    ensures IsYouTubeUrl(url)
  {
    if StartsWith(url[i..], WatchPrefix) {
      PrefixContains(url, i, WatchPrefix, "youtube.com");
    } else {
      PrefixContains(url, i, ShortPrefix, "youtu.be");
    }
  }

  /** A string that starts at `i` with `p`, where `p` starts with `q`,
      contains `q`. */
  lemma PrefixContains(s: string, i: int, p: string, q: string)
    requires 0 <= i <= |s| && StartsWith(s[i..], p) && StartsWith(p, q)
    ensures Contains(s, q)
  {
    assert s[i..i + |q|] == q;
    ContainsAt(s, q, i);
  }

  /** No position of a string without `?` and without `.` directly before
      `b` matches the pattern: the watch prefix holds a `?`, the short one
      a `.b`. */
  lemma {:induction false} NoMatchWithoutMarks(s: string)
    requires forall k :: 0 <= k < |s| ==> s[k] != '?'
    requires forall k :: 0 <= k < |s| - 1 ==> !(s[k] == '.' && s[k + 1] == 'b')
    ensures FirstMatch(s).None?
    decreases |s|
  {
    if |WatchPrefix| <= |s| {
      assert s[..|WatchPrefix|][17] != WatchPrefix[17];
    }
    if |ShortPrefix| <= |s| {
      assert !(s[..|ShortPrefix|][5] == ShortPrefix[5] && s[..|ShortPrefix|][6] == ShortPrefix[6]);
    }
    if s != [] {
      NoMatchWithoutMarks(s[1..]);
    }
  }

  /** An embed URL built from an id matches no watch or short link. */
  lemma EmbedOfIdHasNoMatch(id: string)
    requires forall i :: 0 <= i < |id| ==> IsIdChar(id[i])
    ensures FirstMatch(EmbedBase + id).None?
    ensures Contains(EmbedBase + id, EmbedMarker)
  {
    EmbedOfIdNoQuestionMark(id);
    EmbedOfIdNoDotB(id);
    NoMatchWithoutMarks(EmbedBase + id);
    EmbedOfIdHasMarker(id);
  }

  lemma EmbedOfIdNoQuestionMark(id: string)
    requires forall i :: 0 <= i < |id| ==> IsIdChar(id[i])
    ensures forall k :: 0 <= k < |EmbedBase + id| ==> (EmbedBase + id)[k] != '?'
  {
    var s := EmbedBase + id;
    EmbedBaseMarks();
    forall k | 0 <= k < |s|
      ensures s[k] != '?'
    {
      if k >= |EmbedBase| {
        assert s[k] == id[k - |EmbedBase|];
      } else {
        assert s[k] == EmbedBase[k];
      }
    }
  }

  lemma EmbedOfIdNoDotB(id: string)
    requires forall i :: 0 <= i < |id| ==> IsIdChar(id[i])
    ensures forall k :: 0 <= k < |EmbedBase + id| - 1 ==> !((EmbedBase + id)[k] == '.' && (EmbedBase + id)[k + 1] == 'b')
  {
    var s := EmbedBase + id;
    EmbedBaseMarks();
    forall k | 0 <= k < |s| - 1
      ensures !(s[k] == '.' && s[k + 1] == 'b')
    {
      if k >= |EmbedBase| {
        assert s[k] == id[k - |EmbedBase|];
      } else {
        assert s[k] == EmbedBase[k];
        if k + 1 < |EmbedBase| {
          assert s[k + 1] == EmbedBase[k + 1];
        }
      }
    }
  }

  lemma EmbedOfIdHasMarker(id: string)
    ensures Contains(EmbedBase + id, EmbedMarker)
  {
    var s := EmbedBase + id;
    EmbedBaseMarks();
    assert s[12..12 + |EmbedMarker|] == EmbedBase[12..];
    ContainsAt(s, EmbedMarker, 12);
  }

  lemma EmbedBaseMarks()
    ensures forall k :: 0 <= k < |EmbedBase| ==> EmbedBase[k] != '?'
    ensures forall k :: 0 <= k < |EmbedBase| - 1 ==> !(EmbedBase[k] == '.' && EmbedBase[k + 1] == 'b')
    ensures EmbedBase[|EmbedBase| - 1] == '/'
    ensures EmbedBase[12..] == EmbedMarker
  {
  }

  /** `getEmbedUrl` leaves its own results as they are. */
  lemma GetEmbedUrlIdempotent(url: string)
    requires GetEmbedUrl(url).Some?
    ensures GetEmbedUrl(GetEmbedUrl(url).value) == GetEmbedUrl(url)
  {
    match FirstMatch(url)
    case Some(id) =>
      EmbedOfIdHasNoMatch(id);
    case None =>
  }
}
