/** Recognising tracks in the lines of a playlist scan (`find_track_matches`
    and the five role matchers) and selecting them by language and channel
    layout (`filter_by`). */
module Tracks {
  import opened Text
  import opened Outcomes

  /** The `{id, description}` record a matcher yields; the id keeps its
      colon, as in "3:". */
  datatype Track = Track(id: string, description: string)

  /** What `[0-9]+:` captures. */
  predicate IsTrackId(id: string)
  {
    |id| >= 2 && id[|id| - 1] == ':' && AllDigits(id[..|id| - 1])
  }

  /** The role patterns `(?P<id>[0-9]+:) (?P<description>LEAD.*)` and, when
      anchored, `(?P<id>[0-9]+:) (?P<description>LEAD$)`. */
  datatype TrackPattern = TrackPattern(lead: seq<Atom>, anchored: bool)

  /** Where `$` matches in s after its first n characters: at the end, or
      just before a final newline. */
  predicate EndsAt(s: string, n: nat)
  {
    |s| == n || (|s| == n + 1 && s[n] == '\n')
  }

  /** The scanner line a track is read from, up to the end of the match. */
  function Line(t: Track): string
  {
    t.id + " " + t.description
  }

  /** A description the description group of p can capture. */
  predicate Fits(p: TrackPattern, description: string)
  {
    MatchesAt(p.lead, description) &&
    if p.anchored then |description| == |p.lead| else NoNewline(description[|p.lead|..])
  }

  /** What may follow the matched part of a line: `.*` stops only at a
      newline, `$` allows one final newline. */
  predicate Rest(p: TrackPattern, tail: string)
  {
    if p.anchored then tail == [] || tail == "\n" else tail == [] || tail[0] == '\n'
  }

  /** What the description group captures from rest, the line after `id `,
      when rest starts with the pattern's lead: up to the line end for `.*`,
      exactly the lead for the `$`-anchored video pattern. */
  function Captured(p: TrackPattern, rest: string): string
    requires |p.lead| <= |rest|
  {
    if p.anchored then rest[..|p.lead|] else rest[..|p.lead| + LineLength(rest[|p.lead|..])]
  }

  /** The line after `id ` is matched by the description group. */
  predicate Matches(p: TrackPattern, rest: string)
  {
    MatchesAt(p.lead, rest) && (!p.anchored || EndsAt(rest, |p.lead|))
  }

  /** `re.match(pattern, line)` followed by `groupdict()`. */
  function MatchTrack(p: TrackPattern, line: string): (r: Option<Track>)
    ensures r.Some? ==> IsTrackId(r.value.id) && Fits(p, r.value.description)
    ensures r.Some? ==> StartsWith(line, Line(r.value)) && Rest(p, line[|Line(r.value)|..])
  {
    var k := DigitRun(line);
    if 0 < k && k + 2 <= |line| && line[k] == ':' && line[k + 1] == ' ' && Matches(p, line[k + 2..]) then
      CapturedFits(p, line, k);
      Some(Track(line[..k + 1], Captured(p, line[k + 2..])))
    else None
  }

  lemma CapturedFits(p: TrackPattern, line: string, k: nat)
    requires DigitRun(line) == k
    requires 0 < k && k + 2 <= |line| && line[k] == ':' && line[k + 1] == ' ' && Matches(p, line[k + 2..])
    ensures IsTrackId(line[..k + 1]) && Fits(p, Captured(p, line[k + 2..]))
    ensures StartsWith(line, Line(Track(line[..k + 1], Captured(p, line[k + 2..]))))
    ensures Rest(p, line[|Line(Track(line[..k + 1], Captured(p, line[k + 2..])))|..])
  {
    var rest := line[k + 2..];
    var n := |p.lead|;
    var d := Captured(p, rest);
    assert line[..k + 1][..k] == line[..k];
    assert Line(Track(line[..k + 1], d)) == line[..k + 2 + |d|];
    assert d[n..] == rest[n..][..|d| - n];
  }

  /** Reading back the line of a track whose description fits the pattern
      gives the track: with the ensures of MatchTrack, a line matches
      exactly when it is a fitting track's line followed by an allowed rest. */
  lemma MatchTrackRoundTrip(p: TrackPattern, t: Track, tail: string)
    requires IsTrackId(t.id) && Fits(p, t.description) && Rest(p, tail)
    ensures MatchTrack(p, Line(t) + tail) == Some(t)
  {
    var k := |t.id| - 1;
    IdRoundTrip(t, tail);
    CapturedRoundTrip(p, t.description, tail);
    MatchTrackAt(p, Line(t) + tail, k);
  }

  /** The id of a track's line is read back as the id. */
  lemma IdRoundTrip(t: Track, tail: string)
    requires IsTrackId(t.id)
    ensures DigitRun(Line(t) + tail) == |t.id| - 1
    ensures (Line(t) + tail)[|t.id| - 1] == ':' && (Line(t) + tail)[|t.id|] == ' '
    ensures (Line(t) + tail)[..|t.id|] == t.id
    ensures (Line(t) + tail)[|t.id| + 1..] == t.description + tail
  {
    var line := Line(t) + tail;
    var digits := t.id[..|t.id| - 1];
    var after := [':', ' '] + t.description + tail;
    assert t.id == digits + [':'];
    assert line == digits + after;
    DigitRunOf(digits, after);
  }

  /** The description group captures a fitting description back from the
      description followed by an allowed rest. */
  lemma CapturedRoundTrip(p: TrackPattern, d: string, tail: string)
    requires Fits(p, d) && Rest(p, tail)
    ensures |p.lead| <= |d + tail| && Matches(p, d + tail)
    ensures Captured(p, d + tail) == d
  {
    var rest := d + tail;
    var n := |p.lead|;
    assert MatchesAt(p.lead, rest) by {
      assert rest[..|d|] == d;
    }
    if !p.anchored {
      assert rest[n..] == d[n..] + tail;
      LineLengthOf(d[n..], tail);
    }
  }

  /** A line `<digits>: <rest>` whose rest the pattern matches gives the
      track with id `<digits>:` and the captured description. */
  lemma MatchTrackAt(p: TrackPattern, line: string, k: nat)
    requires DigitRun(line) == k
    requires 0 < k && k + 2 <= |line| && line[k] == ':' && line[k + 1] == ' '
    requires Matches(p, line[k + 2..])
    ensures MatchTrack(p, line) == Some(Track(line[..k + 1], Captured(p, line[k + 2..])))
  {
  }

  /** `find_track_matches`: the tracks of the lines that match, in line order. */
  function FindTrackMatches(p: TrackPattern, lines: seq<string>): (r: seq<Track>)
    ensures |r| <= |lines|
    ensures forall t :: t in r ==> IsTrackId(t.id) && Fits(p, t.description)
  {
    if lines == [] then [] else Found(p, lines[0]) + FindTrackMatches(p, lines[1..])
  }

  /** The track of one line, if it matches. */
  function Found(p: TrackPattern, line: string): (r: seq<Track>)
    ensures |r| <= 1
    ensures forall t :: t in r ==> IsTrackId(t.id) && Fits(p, t.description)
  {
    match MatchTrack(p, line)
    case Some(t) => [t]
    case None => []
  }

  /** Matching distributes over concatenation of the lines: order is kept. */
  lemma {:induction false} FindTrackMatchesAppend(p: TrackPattern, a: seq<string>, b: seq<string>)
    ensures FindTrackMatches(p, a + b) == FindTrackMatches(p, a) + FindTrackMatches(p, b)
  {
    if a == [] {
      assert a + b == b;
    } else {
      assert (a + b)[0] == a[0];
      assert (a + b)[1..] == a[1..] + b;
      FindTrackMatchesAppend(p, a[1..], b);
      var head := Found(p, a[0]);
      assert FindTrackMatches(p, a + b) == head + (FindTrackMatches(p, a[1..]) + FindTrackMatches(p, b));
      assert head + (FindTrackMatches(p, a[1..]) + FindTrackMatches(p, b)) ==
             (head + FindTrackMatches(p, a[1..])) + FindTrackMatches(p, b);
    }
  }

  /** A track is found exactly when some line matches to it. */
  lemma {:induction false} FindTrackMatchesMembership(p: TrackPattern, lines: seq<string>, t: Track)
    ensures t in FindTrackMatches(p, lines) <==> exists i :: 0 <= i < |lines| && MatchTrack(p, lines[i]) == Some(t)
  {
    if lines != [] {
      FindTrackMatchesMembership(p, lines[1..], t);
      if exists i :: 0 <= i < |lines| && MatchTrack(p, lines[i]) == Some(t) {
        var i :| 0 <= i < |lines| && MatchTrack(p, lines[i]) == Some(t);
        if i > 0 {
          assert lines[1..][i - 1] == lines[i];
        }
      }
      if exists i :: 0 <= i < |lines| - 1 && MatchTrack(p, lines[1..][i]) == Some(t) {
        var i :| 0 <= i < |lines| - 1 && MatchTrack(p, lines[1..][i]) == Some(t);
        assert lines[i + 1] == lines[1..][i];
      }
    }
  }

  // ---------------------------------------------------------------------
  // filter_by
  // ---------------------------------------------------------------------

  /** `filter(lambda t: re.search(r, t['description']), tracks)`. */
  function Keep(r: string, tracks: seq<Track>): (kept: seq<Track>)
    ensures |kept| <= |tracks|
    ensures forall t :: t in kept <==> t in tracks && Search(Regex(r), t.description)
  {
    if tracks == [] then []
    else (if Search(Regex(r), tracks[0].description) then [tracks[0]] else []) + Keep(r, tracks[1..])
  }

  /** The value of `filter_by(regexes, tracks)`: one Keep per regular
      expression, concatenated in the order of the expressions. */
  function Selected(regexes: seq<string>, tracks: seq<Track>): (r: seq<Track>)
    ensures forall t :: t in r ==> t in tracks
  {
    if regexes == [] then []
    else Selected(regexes[..|regexes| - 1], tracks) + Keep(regexes[|regexes| - 1], tracks)
  }

  /** `filter_by`: appends, expression by expression, the tracks whose
      description the expression is found in. */
  method FilterBy(regexes: seq<string>, tracks: seq<Track>) returns (selected: seq<Track>)
    ensures selected == Selected(regexes, tracks)
  {
    selected := [];
    for i := 0 to |regexes|
      invariant selected == Selected(regexes[..i], tracks)
    {
      assert regexes[..i + 1][..i] == regexes[..i];
      selected := selected + Keep(regexes[i], tracks);
    }
    assert regexes[..|regexes|] == regexes;
  }

  /** How many of the regular expressions are found in d. */
  function Hits(regexes: seq<string>, d: string): nat
  {
    if regexes == [] then 0
    else Hits(regexes[..|regexes| - 1], d) + (if Search(Regex(regexes[|regexes| - 1]), d) then 1 else 0)
  }

  lemma {:induction false} KeepCount(r: string, tracks: seq<Track>, t: Track)
    ensures multiset(Keep(r, tracks))[t] == if Search(Regex(r), t.description) then multiset(tracks)[t] else 0
  {
    if tracks != [] {
      KeepCount(r, tracks[1..], t);
      var head := if Search(Regex(r), tracks[0].description) then [tracks[0]] else [];
      assert Keep(r, tracks) == head + Keep(r, tracks[1..]);
      assert multiset(Keep(r, tracks)) == multiset(head) + multiset(Keep(r, tracks[1..]));
      assert tracks == [tracks[0]] + tracks[1..];
      assert multiset(tracks) == multiset([tracks[0]]) + multiset(tracks[1..]);
    }
  }

  /** Counting step of SelectedCount, kept apart so that the multiplication
      is the only thing in its context. */
  lemma CountStep(before: nat, kept: nat, h: nat, c: nat, hit: bool, hits: nat)
    requires before == h * c && kept == (if hit then c else 0)
    requires hits == h + if hit then 1 else 0
    ensures before + kept == hits * c
  {
    if hit {
      assert (h + 1) * c == h * c + c;
    }
  }

  lemma SelectedSnocCount(regexes: seq<string>, tracks: seq<Track>, t: Track)
    requires regexes != []
    ensures multiset(Selected(regexes, tracks))[t] ==
            multiset(Selected(regexes[..|regexes| - 1], tracks))[t] + multiset(Keep(regexes[|regexes| - 1], tracks))[t]
  {
    var before, kept := Selected(regexes[..|regexes| - 1], tracks), Keep(regexes[|regexes| - 1], tracks);
    assert Selected(regexes, tracks) == before + kept;
    assert multiset(before + kept) == multiset(before) + multiset(kept);
  }

  /** A track is selected once per expression found in its description:
      one matching two expressions appears twice. */
  lemma {:induction false} SelectedCount(regexes: seq<string>, tracks: seq<Track>, t: Track)
    ensures multiset(Selected(regexes, tracks))[t] == Hits(regexes, t.description) * multiset(tracks)[t]
  {
    if regexes != [] {
      var front, last := regexes[..|regexes| - 1], regexes[|regexes| - 1];
      SelectedCount(front, tracks, t);
      KeepCount(last, tracks, t);
      SelectedSnocCount(regexes, tracks, t);
      var hit := Search(Regex(last), t.description);
      assert Hits(regexes, t.description) == Hits(front, t.description) + if hit then 1 else 0;
      CountStep(multiset(Selected(front, tracks))[t], multiset(Keep(last, tracks))[t],
                Hits(front, t.description), multiset(tracks)[t], hit, Hits(regexes, t.description));
    }
  }

  /** Some expression of `regexes` is found in d. */
  predicate FoundAny(regexes: seq<string>, d: string)
  {
    exists i :: 0 <= i < |regexes| && Search(Regex(regexes[i]), d)
  }

  lemma FoundAnySnoc(regexes: seq<string>, d: string)
    requires regexes != []
    ensures FoundAny(regexes, d) <==> FoundAny(regexes[..|regexes| - 1], d) || Search(Regex(regexes[|regexes| - 1]), d)
  {
    var front := regexes[..|regexes| - 1];
    if FoundAny(front, d) {
      var i :| 0 <= i < |front| && Search(Regex(front[i]), d);
      assert regexes[i] == front[i];
    }
    if FoundAny(regexes, d) {
      var i :| 0 <= i < |regexes| && Search(Regex(regexes[i]), d);
      if i < |front| {
        assert regexes[i] == front[i];
      }
    }
  }

  /** A track is selected exactly when it is one of the tracks and some
      expression is found in its description. */
  lemma {:induction false} SelectedMembership(regexes: seq<string>, tracks: seq<Track>, t: Track)
    ensures t in Selected(regexes, tracks) <==> t in tracks && FoundAny(regexes, t.description)
  {
    if regexes != [] {
      SelectedMembership(regexes[..|regexes| - 1], tracks, t);
      SelectedSnocMember(regexes, tracks, t);
      FoundAnySnoc(regexes, t.description);
    }
  }

  lemma SelectedSnocMember(regexes: seq<string>, tracks: seq<Track>, t: Track)
    requires regexes != []
    ensures t in Selected(regexes, tracks) <==>
            t in Selected(regexes[..|regexes| - 1], tracks) ||
            (t in tracks && Search(Regex(regexes[|regexes| - 1]), t.description))
  {
    assert Selected(regexes, tracks) == Selected(regexes[..|regexes| - 1], tracks) + Keep(regexes[|regexes| - 1], tracks);
  }

  /** Filtering by one expression keeps the relative order of two lists. */
  lemma {:induction false} KeepAppend(r: string, a: seq<Track>, b: seq<Track>)
    ensures Keep(r, a + b) == Keep(r, a) + Keep(r, b)
  {
    if a == [] {
      assert a + b == b;
    } else {
      assert (a + b)[0] == a[0];
      assert (a + b)[1..] == a[1..] + b;
      KeepAppend(r, a[1..], b);
    }
  }

  // ---------------------------------------------------------------------
  // The role matchers
  // ---------------------------------------------------------------------

  const VideoText := "h264/AVC, 1080p24 /1.001 (16:9)"

  const ChapterPattern := TrackPattern(Regex("Chapters, "), false)
  const VideoPattern := TrackPattern(Regex(VideoText), true)
  const LosslessPattern := TrackPattern(Regex("DTS Master Audio, "), false)
  const Ac3Pattern := TrackPattern(Regex("AC3, "), false)
  const Ac3SurroundPattern := TrackPattern(Regex("AC3 Surround, "), false)
  const DtsPattern := TrackPattern(Regex("DTS, "), false)
  const SubtitlePattern := TrackPattern(Regex("Subtitle (PGS), "), false)

  /** The default filters of the matchers, which `demux` relies on. */
  const DefaultLanguages: seq<string> := ["English"]
  const DefaultChannels: seq<string> := ["2.0"]

  /** The tracks a role pattern finds carry a track id, and their
      descriptions start with the role's literal. */
  lemma PatternTracks(p: TrackPattern, lit: string, lines: seq<string>)
    requires p == TrackPattern(Regex(lit), false) && '.' !in lit
    ensures forall t :: t in FindTrackMatches(p, lines) ==> IsTrackId(t.id) && StartsWith(t.description, lit)
  {
    forall t | t in FindTrackMatches(p, lines)
      ensures StartsWith(t.description, lit)
    {
      LiteralMatch(lit, t.description);
    }
  }

  /** The tracks of a role filtered by language. */
  lemma RoleSelection(p: TrackPattern, lit: string, lines: seq<string>, languages: seq<string>)
    requires p == TrackPattern(Regex(lit), false) && '.' !in lit
    ensures forall t :: t in Selected(languages, FindTrackMatches(p, lines)) ==>
      IsTrackId(t.id) && StartsWith(t.description, lit) && FoundAny(languages, t.description)
  {
    PatternTracks(p, lit, lines);
    SelectedHits(languages, FindTrackMatches(p, lines));
  }

  /** `chapter_tracks`. */
  function ChapterTracks(lines: seq<string>): (r: seq<Track>)
    ensures forall t :: t in r ==> IsTrackId(t.id) && StartsWith(t.description, "Chapters, ")
  {
    var r := FindTrackMatches(ChapterPattern, lines);
    PatternTracks(ChapterPattern, "Chapters, ", lines);
    r
  }

  /** `video_tracks`: the description is the whole rest of the line and
      agrees with the pattern text everywhere but at its `.`. */
  function VideoTracks(lines: seq<string>): (r: seq<Track>)
    ensures forall t :: t in r ==>
      IsTrackId(t.id) && |t.description| == |VideoText| &&
      forall i :: 0 <= i < |VideoText| && VideoText[i] != '.' ==> t.description[i] == VideoText[i]
  {
    var r := FindTrackMatches(VideoPattern, lines);
    assert forall t :: t in r ==> MatchesAt(Regex(VideoText), t.description);
    r
  }

  /** Every track selected by `regexes` has one of them in its description. */
  lemma SelectedHits(regexes: seq<string>, tracks: seq<Track>)
    ensures forall t :: t in Selected(regexes, tracks) ==> t in tracks && FoundAny(regexes, t.description)
  {
    forall t | t in Selected(regexes, tracks)
      ensures t in tracks && FoundAny(regexes, t.description)
    {
      SelectedMembership(regexes, tracks, t);
    }
  }

  /** The value of `lossless_audio_tracks(lines, languages)`. */
  function LosslessSelection(lines: seq<string>, languages: seq<string>): (r: seq<Track>)
    ensures forall t :: t in r ==>
      IsTrackId(t.id) && StartsWith(t.description, "DTS Master Audio, ") &&
      FoundAny(languages, t.description)
  {
    RoleSelection(LosslessPattern, "DTS Master Audio, ", lines, languages);
    Selected(languages, FindTrackMatches(LosslessPattern, lines))
  }

  /** `lossless_audio_tracks`. */
  method LosslessAudioTracks(lines: seq<string>, languages: seq<string>) returns (r: seq<Track>)
    ensures r == LosslessSelection(lines, languages)
  {
    var all := FindTrackMatches(LosslessPattern, lines);
    r := FilterBy(languages, all);
  }

  /** The lossy tracks before filtering: every `AC3, ` match, then every
      `AC3 Surround, ` match, then every `DTS, ` match. */
  function LossyCandidates(lines: seq<string>): (r: seq<Track>)
    ensures forall t :: t in r ==> IsTrackId(t.id) && IsLossy(t.description)
  {
    var ac3 := FindTrackMatches(Ac3Pattern, lines);
    var surround := FindTrackMatches(Ac3SurroundPattern, lines);
    var dts := FindTrackMatches(DtsPattern, lines);
    LossyConcat(lines, ac3, surround, dts);
    ac3 + surround + dts
  }

  /** A lossy description: AC3, AC3 Surround or DTS. */
  predicate IsLossy(description: string)
  {
    StartsWith(description, "AC3, ") || StartsWith(description, "AC3 Surround, ") ||
    StartsWith(description, "DTS, ")
  }

  lemma LossyConcat(lines: seq<string>, ac3: seq<Track>, surround: seq<Track>, dts: seq<Track>)
    requires ac3 == FindTrackMatches(Ac3Pattern, lines)
    requires surround == FindTrackMatches(Ac3SurroundPattern, lines)
    requires dts == FindTrackMatches(DtsPattern, lines)
    ensures forall t :: t in ac3 + surround + dts ==> IsTrackId(t.id) && IsLossy(t.description)
  {
    Ac3Tracks(lines);
    Ac3SurroundTracks(lines);
    DtsTracks(lines);
  }

  lemma Ac3Tracks(lines: seq<string>)
    ensures forall t :: t in FindTrackMatches(Ac3Pattern, lines) ==> IsTrackId(t.id) && IsLossy(t.description)
  {
    PatternTracks(Ac3Pattern, "AC3, ", lines);
  }

  lemma Ac3SurroundTracks(lines: seq<string>)
    ensures forall t :: t in FindTrackMatches(Ac3SurroundPattern, lines) ==> IsTrackId(t.id) && IsLossy(t.description)
  {
    PatternTracks(Ac3SurroundPattern, "AC3 Surround, ", lines);
  }

  lemma DtsTracks(lines: seq<string>)
    ensures forall t :: t in FindTrackMatches(DtsPattern, lines) ==> IsTrackId(t.id) && IsLossy(t.description)
  {
    PatternTracks(DtsPattern, "DTS, ", lines);
  }

  /** The value of `lossy_audio_tracks(lines, languages, channels)`. */
  function LossySelection(lines: seq<string>, languages: seq<string>, channels: seq<string>): (r: seq<Track>)
    ensures forall t :: t in r ==>
      t in LossyCandidates(lines) &&
      FoundAny(languages, t.description) && FoundAny(channels, t.description)
  {
    var byLanguage := Selected(languages, LossyCandidates(lines));
    SelectedHits(languages, LossyCandidates(lines));
    SelectedHits(channels, byLanguage);
    Selected(channels, byLanguage)
  }

  /** `lossy_audio_tracks`: extends the list of candidates in place, then
      filters by language and by channel layout. */
  method LossyAudioTracks(lines: seq<string>, languages: seq<string>, channels: seq<string>)
    returns (r: seq<Track>)
    ensures r == LossySelection(lines, languages, channels)
  {
    var all := FindTrackMatches(Ac3Pattern, lines);
    all := all + FindTrackMatches(Ac3SurroundPattern, lines);
    all := all + FindTrackMatches(DtsPattern, lines);
    var byLanguage := FilterBy(languages, all);
    r := FilterBy(channels, byLanguage);
  }

  /** Filtering by a single expression is one Keep. */
  lemma SelectedSingle(r: string, tracks: seq<Track>)
    ensures Selected([r], tracks) == Keep(r, tracks)
  {
    assert [r][..0] == [];
  }

  /** With one language and one channel expression, as by default, the
      selected commentaries keep the candidate order: the `AC3, ` ones
      first, then `AC3 Surround, `, then `DTS, `. */
  lemma LossyOrder(lines: seq<string>, language: string, channel: string)
    ensures LossySelection(lines, [language], [channel]) ==
      Keep(channel, Keep(language, FindTrackMatches(Ac3Pattern, lines))) +
      Keep(channel, Keep(language, FindTrackMatches(Ac3SurroundPattern, lines))) +
      Keep(channel, Keep(language, FindTrackMatches(DtsPattern, lines)))
  {
    var a := FindTrackMatches(Ac3Pattern, lines);
    var s := FindTrackMatches(Ac3SurroundPattern, lines);
    var d := FindTrackMatches(DtsPattern, lines);
    SelectedSingle(language, a + s + d);
    SelectedSingle(channel, Keep(language, a + s + d));
    KeepAppend(language, a + s, d);
    KeepAppend(language, a, s);
    KeepAppend(channel, Keep(language, a) + Keep(language, s), Keep(language, d));
    KeepAppend(channel, Keep(language, a), Keep(language, s));
  }

  /** The value of `subtitle_tracks(lines, languages)`. */
  function SubtitleSelection(lines: seq<string>, languages: seq<string>): (r: seq<Track>)
    ensures forall t :: t in r ==>
      IsTrackId(t.id) && StartsWith(t.description, "Subtitle (PGS), ") &&
      FoundAny(languages, t.description)
  {
    RoleSelection(SubtitlePattern, "Subtitle (PGS), ", lines, languages);
    Selected(languages, FindTrackMatches(SubtitlePattern, lines))
  }

  /** `subtitle_tracks`. */
  method SubtitleTracks(lines: seq<string>, languages: seq<string>) returns (r: seq<Track>)
    ensures r == SubtitleSelection(lines, languages)
  {
    var all := FindTrackMatches(SubtitlePattern, lines);
    r := FilterBy(languages, all);
  }
}
