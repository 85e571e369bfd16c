/**
 * The two URL checks of the spreadsheet connect endpoint: the substring test
 * on the whole URL, and the search for the spreadsheet ID done by the regular
 * expression `/\/spreadsheets\/d\/([a-zA-Z0-9-_]+)/`.
 */
module SheetUrl {
  import opened Wrappers
  import opened Text

  /** What a URL must contain to be taken for a Google Sheets link. */
  const SheetsHost := "docs.google.com/spreadsheets"

  /** The literal part of the ID pattern. */
  const IdPrefix := "/spreadsheets/d/"

  /** The regex character class `[a-zA-Z0-9-_]`. */
  predicate IsIdChar(c: char) {
    ('a' <= c <= 'z') || ('A' <= c <= 'Z') || ('0' <= c <= '9') || c == '-' || c == '_'
  }

  /** The guard `url && url.includes('docs.google.com/spreadsheets')`. */
  predicate IsSheetsUrl(url: Option<string>) {
    url.Some? && url.value != "" && Includes(url.value, SheetsHost)
  }

  /** The regex can start a match at index `p` of `s`. */
  predicate MatchesAt(s: string, p: nat) {
    p + |IdPrefix| < |s| && s[p..p + |IdPrefix|] == IdPrefix && IsIdChar(s[p + |IdPrefix|])
  }

  /** `p` is the leftmost index where the regex matches. */
  ghost predicate FirstMatch(s: string, p: nat) {
    MatchesAt(s, p) && forall q: nat :: q < p ==> !MatchesAt(s, q)
  }

  /**
   * `id` is the capture group of the leftmost match found at `p`: it starts
   * right after the prefix, is made of ID characters, and is maximal.
   */
  ghost predicate CapturedAt(s: string, p: nat, id: string) {
    var start := p + |IdPrefix|;
    && FirstMatch(s, p)
    && start + |id| <= |s|
    && s[start..start + |id|] == id
    && (forall k :: 0 <= k < |id| ==> IsIdChar(id[k]))
    && (start + |id| == |s| || !IsIdChar(s[start + |id|]))
  }

  /** Scans for the leftmost match at or after `from`. */
  function FindMatch(s: string, from: nat): (r: Option<nat>)
    requires from <= |s|
    ensures r.Some? ==> from <= r.value && MatchesAt(s, r.value)
    ensures r.Some? ==> forall q: nat :: from <= q < r.value ==> !MatchesAt(s, q)
    ensures r.None? ==> forall q: nat :: from <= q ==> !MatchesAt(s, q)
    decreases |s| - from
  {
    if from == |s| then None
    else if MatchesAt(s, from) then Some(from)
    else FindMatch(s, from + 1)
  }

  /** The greedy `+`: the end of the run of ID characters that starts at `i`. */
  function IdRunEnd(s: string, i: nat): (j: nat)
    requires i <= |s|
    ensures i <= j <= |s|
    ensures forall k :: i <= k < j ==> IsIdChar(s[k])
    ensures j == |s| || !IsIdChar(s[j])
    decreases |s| - i
  {
    if i < |s| && IsIdChar(s[i]) then IdRunEnd(s, i + 1) else i
  }

  /** `match[1]` of `url.match(...)`, or `None` when `match` is null. */
  function ExtractId(url: string): (r: Option<string>)
    ensures r.None? <==> forall p: nat :: !MatchesAt(url, p)
    ensures r.Some? ==> |r.value| > 0 && forall k :: 0 <= k < |r.value| ==> IsIdChar(r.value[k])
  {
    match FindMatch(url, 0)
    case None => None
    case Some(p) =>
      var start := p + |IdPrefix|;
      Some(url[start..IdRunEnd(url, start)])
  }

  /** Two maximal runs of ID characters from the same index are the same run. */
  lemma RunUnique(s: string, i: nat, j1: nat, j2: nat)
    requires i <= j1 <= |s| && i <= j2 <= |s|
    requires forall k :: i <= k < j1 ==> IsIdChar(s[k])
    requires forall k :: i <= k < j2 ==> IsIdChar(s[k])
    requires j1 == |s| || !IsIdChar(s[j1])
    requires j2 == |s| || !IsIdChar(s[j2])
    ensures j1 == j2
  {
  }

  /**
   * The extracted ID is exactly the capture group of the leftmost match:
   * `ExtractId` returns `id` if and only if the regex captures `id`.
   */
  lemma ExtractIdIsCapture(url: string, id: string)
    ensures ExtractId(url) == Some(id) <==> exists p: nat :: CapturedAt(url, p, id)
  {
    if ExtractId(url) == Some(id) {
      ExtractedIsCaptured(url, id);
    }
    if p: nat :| CapturedAt(url, p, id) {
      CapturedIsExtracted(url, p, id);
    }
  }

  lemma ExtractedIsCaptured(url: string, id: string)
    requires ExtractId(url) == Some(id)
    ensures CapturedAt(url, FindMatch(url, 0).value, id)
  {
    var p := FindMatch(url, 0).value;
    var start := p + |IdPrefix|;
    assert id == url[start..IdRunEnd(url, start)];
  }

  lemma CapturedIsExtracted(url: string, p: nat, id: string)
    requires CapturedAt(url, p, id)
    ensures ExtractId(url) == Some(id)
  {
    var m := FindMatch(url, 0);
    assert m.Some?;
    var p' := m.value;
    assert p' == p by {
      assert !(p' < p) && !(p < p');
    }
    var start := p + |IdPrefix|;
    var e := IdRunEnd(url, start);
    RunUnique(url, start, e, start + |id|);
    assert id == url[start..e];
  }

  /**
   * When the path segment after the leftmost `/spreadsheets/d/` is made of ID
   * characters only and is followed by a character outside the ID class (a
   * `/`, `?`, `#` and so on) or by the end of the URL, the extracted ID is that
   * whole segment.
   */
  lemma SegmentIsId(url: string, p: nat, segment: string, rest: string)
    requires FirstMatch(url, p)
    requires url == url[..p] + IdPrefix + segment + rest
    requires |segment| > 0 && forall k :: 0 <= k < |segment| ==> IsIdChar(segment[k])
    requires rest == [] || !IsIdChar(rest[0])
    ensures ExtractId(url) == Some(segment)
  {
    var start := p + |IdPrefix|;
    assert url[start..start + |segment|] == segment;
    assert start + |segment| < |url| ==> url[start + |segment|] == rest[0];
    assert CapturedAt(url, p, segment);
    ExtractIdIsCapture(url, segment);
  }

  /** The scheme and host of a typical sheet link. */
  const ExampleHost := "https://docs.google.com"

  /** An example link, as a user copies it from the browser. */
  const ExampleUrl := ExampleHost + "/spreadsheets/d/ABC123/edit"

  lemma NoMatchInHost(url: string, q: nat)
    requires |url| > |ExampleHost| && url[..|ExampleHost|] == ExampleHost && q < |ExampleHost|
    ensures !MatchesAt(url, q)
  {
    assert url[q] == ExampleHost[q];
    if q + 1 < |ExampleHost| {
      assert url[q + 1] == ExampleHost[q + 1];
    }
    assert ExampleHost[q] != '/' || ExampleHost[q + 1] != 's' || q + 1 == |ExampleHost|;
    assert IdPrefix[0] == '/' && IdPrefix[1] == 's';
    if q + |IdPrefix| < |url| {
      var w := url[q..q + |IdPrefix|];
      assert w[0] == url[q] && w[1] == url[q + 1];
      assert w != IdPrefix;
    }
  }

  /** The example link passes the URL check and yields the ID `ABC123`. */
  lemma ExampleUrlId()
    ensures IsSheetsUrl(Some(ExampleUrl))
    ensures ExtractId(ExampleUrl) == Some("ABC123")
  {
    var url := ExampleHost + IdPrefix + "ABC123" + "/edit";
    assert url == ExampleUrl;
    assert SheetsHost == ExampleHost[8..] + IdPrefix[..13];
    assert url[8..8 + |SheetsHost|] == ExampleHost[8..] + IdPrefix[..13];
    assert OccursAt(url, SheetsHost, 8);
    assert url[..|ExampleHost|] == ExampleHost;
    forall q: nat | q < |ExampleHost| ensures !MatchesAt(url, q) {
      NoMatchInHost(url, q);
    }
    var start := |ExampleHost| + |IdPrefix|;
    assert url[|ExampleHost|..start] == IdPrefix;
    assert url[start] == 'A';
    SegmentIsId(url, |ExampleHost|, "ABC123", "/edit");
  }
}
