/** `demux` (lines 73-266): scan the disc, choose a playlist, scan its
    tracks, choose the tracks to keep and build the eac3to command line
    that extracts them. The two eac3to scans are inputs: `None` stands for
    a scan that failed. */
module Demux {
  import opened Text
  import opened Outcomes
  import opened Tracks
  import opened Playlists
  import opened Plan

  // ---------------------------------------------------------------------
  // The command line (lines 198-262)
  // ---------------------------------------------------------------------

  /** The arguments of one chapter, video or subtitle loop: the id of every
      track and a file numbered from `first` up. */
  method NumberedArgs(tracks: seq<Track>, first: nat, role: string, extension: string)
    returns (args: seq<string>, next: nat)
    ensures args == Flatten(Numbered(tracks, first, role, extension))
    ensures next == first + |tracks|
  {
    args := [];
    next := first;
    for i := 0 to |tracks|
      invariant next == first + i
      invariant args == Flatten(Numbered(tracks[..i], first, role, extension))
    {
      NumberedArgsSnoc(tracks, i, first, role, extension);
      args := args + [tracks[i].id, FileName(Target(next, role, extension))];
      next := next + 1;
    }
    assert tracks[..|tracks|] == tracks;
  }

  /** One more track of a numbered role adds its id and its file name. */
  lemma NumberedArgsSnoc(tracks: seq<Track>, i: nat, first: nat, role: string, extension: string)
    requires i < |tracks|
    ensures Flatten(Numbered(tracks[..i + 1], first, role, extension)) ==
      Flatten(Numbered(tracks[..i], first, role, extension)) + [tracks[i].id, FileName(Target(first + i, role, extension))]
  {
    var x := Extract(tracks[i].id, Some(Target(first + i, role, extension)), false);
    NumberedSnoc(tracks, i, first, role, extension);
    FlattenSnoc(Numbered(tracks[..i], first, role, extension), x);
    assert Args(x) == [tracks[i].id, FileName(Target(first + i, role, extension))];
  }

  /** The body of the soundtrack loop (lines 213-232) for one track, when
      `prefix` is the next free file number: its arguments and the next
      free number after it. */
  method SoundtrackStep(t: Track, prefix: nat) returns (r: Result<(seq<string>, nat)>)
    ensures r == match SoundtrackExtract(t, prefix)
                 case Err(e) => Err(e)
                 case Ok(x) => Ok((Args(x), if x.target.Some? then prefix + 1 else prefix))
  {
    if Search(StrangeSetupRegex, t.description) {
      return Err(StrangeSetup(t.id));
    } else if Search(SixOneRegex, t.description) {
      return Err(SixOneChannels(t.id));
    }
    var args := [t.id];
    match SoundtrackExtension(t.description)
    case None =>
      // a raw/PCM track: its id is passed on, and no file number is used
      assert Args(Extract(t.id, None, false)) == args;
      r := Ok((args, prefix));
    case Some(extension) =>
      args := args + [FileName(Target(prefix, AudioRole, extension))];
      assert Args(Extract(t.id, Some(Target(prefix, AudioRole, extension)), false)) == args;
      r := Ok((args, prefix + 1));
  }

  /** The soundtrack loop (lines 211-232): the arguments and the next file
      number, or the first soundtrack that cannot be handled. */
  method SoundtrackArgs(tracks: seq<Track>, first: nat) returns (r: Result<(seq<string>, nat)>)
    ensures Soundtracks(tracks, first).Err? ==> r == Err(Soundtracks(tracks, first).error)
    ensures Soundtracks(tracks, first).Ok? ==>
      r == Ok((Flatten(Soundtracks(tracks, first).value.plan), Soundtracks(tracks, first).value.next))
  {
    var args: seq<string> := [];
    var prefix := first;
    ghost var n := Numbering([], first);
    for i := 0 to |tracks|
      invariant Soundtracks(tracks[..i], first) == Ok(n)
      invariant n.next == prefix && Flatten(n.plan) == args
    {
      var step := SoundtrackStep(tracks[i], prefix);
      SoundtrackAdvance(tracks, i, first, n, prefix, step);
      if step.Err? {
        return Err(step.error);
      }
      ghost var x := SoundtrackExtract(tracks[i], prefix).value;
      args := args + step.value.0;
      prefix := step.value.1;
      n := Numbering(n.plan + [x], prefix);
    }
    assert tracks[..|tracks|] == tracks;
    r := Ok((args, prefix));
  }

  /** What one turn of the soundtrack loop does to the plan of the tracks so far. */
  lemma SoundtrackAdvance(tracks: seq<Track>, i: nat, first: nat, n: Numbering, prefix: nat,
                          step: Result<(seq<string>, nat)>)
    requires i < |tracks| && Soundtracks(tracks[..i], first) == Ok(n) && n.next == prefix
    requires step == match SoundtrackExtract(tracks[i], prefix)
                     case Err(e) => Err(e)
                     case Ok(x) => Ok((Args(x), if x.target.Some? then prefix + 1 else prefix))
    ensures step.Err? ==> Soundtracks(tracks, first) == Err(step.error)
    ensures step.Ok? ==> Soundtracks(tracks[..i + 1], first) ==
                         Ok(Numbering(n.plan + [SoundtrackExtract(tracks[i], prefix).value], step.value.1))
    ensures step.Ok? ==> Flatten(n.plan + [SoundtrackExtract(tracks[i], prefix).value]) == Flatten(n.plan) + step.value.0
  {
    if step.Err? {
      SoundtracksSnoc(tracks, i, first, n);
      SoundtracksStop(tracks, first, i + 1);
    } else {
      var x := SoundtrackExtract(tracks[i], prefix).value;
      assert SoundtrackExtract(tracks[i], n.next) == Ok(x);
      SoundtracksSnocOk(tracks, i, first, n, x, step.value.1);
      FlattenSnoc(n.plan, x);
    }
  }

  /** The body of the commentary loop (lines 236-249) for one track written
      to file `prefix`. */
  method CommentaryStep(t: Track, prefix: nat) returns (r: Result<seq<string>>)
    ensures r == match CommentaryExtract(t, prefix)
                 case Err(e) => Err(e)
                 case Ok(x) => Ok(Args(x))
  {
    var args := [t.id];
    match CommentaryExtension(t.description)
    case None =>
      return Err(UnknownCommentary(t.description));
    case Some(extension) =>
      args := args + [FileName(Target(prefix, CommentaryRole, extension))];
    // dialogue normalisation is kept for commentaries
    if Search(DialnormRegex, t.description) {
      args := args + ["-keepDialnorm"];
    }
    assert Args(CommentaryExtract(t, prefix).value) == args;
    r := Ok(args);
  }

  /** The commentary loop (lines 234-249): the arguments, or the first
      commentary that is neither AC3 nor DTS. */
  method CommentaryArgs(tracks: seq<Track>, first: nat) returns (r: Result<seq<string>>)
    ensures Commentaries(tracks, first).Err? ==> r == Err(Commentaries(tracks, first).error)
    ensures Commentaries(tracks, first).Ok? ==> r == Ok(Flatten(Commentaries(tracks, first).value))
  {
    var args: seq<string> := [];
    var prefix := first;
    ghost var plan := [];
    for i := 0 to |tracks|
      invariant prefix == first + i
      invariant Commentaries(tracks[..i], first) == Ok(plan)
      invariant Flatten(plan) == args
    {
      var step := CommentaryStep(tracks[i], prefix);
      CommentariesSnoc(tracks, i, first, plan);
      if step.Err? {
        CommentariesStop(tracks, first, i + 1);
        return Err(step.error);
      }
      ghost var x := CommentaryExtract(tracks[i], prefix).value;
      FlattenSnoc(plan, x);
      args := args + step.value;
      plan := plan + [x];
      prefix := prefix + 1;
    }
    assert tracks[..|tracks|] == tracks;
    r := Ok(args);
  }

  /** The arguments of a laid-out plan, role by role. */
  lemma FlattenLayout(chapters: seq<Track>, videos: seq<Track>, s: Numbering, m: seq<Extract>, subtitles: seq<Track>,
                       subtitleFirst: nat)
    requires subtitleFirst == s.next + |m|
    ensures Flatten(Layout(chapters, videos, s, m, subtitles)) ==
      Flatten(Numbered(chapters, 1, ChapterRole, ChapterExtension)) +
      Flatten(Numbered(videos, 1 + |chapters|, VideoRole, VideoExtension)) +
      Flatten(s.plan) + Flatten(m) +
      Flatten(Numbered(subtitles, subtitleFirst, SubtitleRole, SubtitleExtension))
  {
    var c := Numbered(chapters, 1, ChapterRole, ChapterExtension);
    var v := Numbered(videos, 1 + |chapters|, VideoRole, VideoExtension);
    var u := Numbered(subtitles, subtitleFirst, SubtitleRole, SubtitleExtension);
    LayoutParts(chapters, videos, s, m, subtitles, subtitleFirst);
    FlattenAppend(c, v);
    FlattenAppend(c + v, s.plan);
    FlattenAppend(c + v + s.plan, m);
    FlattenAppend(c + v + s.plan + m, u);
  }

  /** The command built from the arguments of the five roles. */
  lemma CommandAssembled(path: string, chosen: int, chapters: seq<Track>, videos: seq<Track>,
                         soundtracks: seq<Track>, commentaries: seq<Track>, subtitles: seq<Track>,
                         first: nat, s: Numbering, m: seq<Extract>,
                         args: seq<string>, commentaryArgs: seq<string>, prefix: nat, subtitleArgs: seq<string>)
    requires first == 1 + |chapters| + |videos|
    requires Soundtracks(soundtracks, first) == Ok(s)
    requires Commentaries(commentaries, s.next) == Ok(m)
    requires args == Flatten(Numbered(chapters, 1, ChapterRole, ChapterExtension)) +
                     Flatten(Numbered(videos, 1 + |chapters|, VideoRole, VideoExtension)) +
                     Flatten(s.plan)
    requires commentaryArgs == Flatten(m)
    requires prefix == s.next + |m|
    requires subtitleArgs == Flatten(Numbered(subtitles, prefix, SubtitleRole, SubtitleExtension))
    ensures CommandOf(path, chosen, ExtractionPlan(chapters, videos, soundtracks, commentaries, subtitles)) ==
      Ok(Header(path, chosen) + (args + commentaryArgs + subtitleArgs))
  {
    FlattenLayout(chapters, videos, s, m, subtitles, prefix);
    PlanLaidOut(chapters, videos, soundtracks, commentaries, subtitles, first, s, m);
  }

  /** Lines 198-262: the eac3to command that extracts the chosen tracks,
      or the first track that stops it. */
  method BuildCommand(path: string, chosen: int, chapters: seq<Track>, videos: seq<Track>,
                      soundtracks: seq<Track>, commentaries: seq<Track>, subtitles: seq<Track>)
    returns (r: Result<seq<string>>)
    ensures r == CommandOf(path, chosen, ExtractionPlan(chapters, videos, soundtracks, commentaries, subtitles))
  {
    var chapterArgs, prefix := NumberedArgs(chapters, 1, ChapterRole, ChapterExtension);
    var videoArgs;
    videoArgs, prefix := NumberedArgs(videos, prefix, VideoRole, VideoExtension);
    ghost var first := prefix;
    var soundtrackResult := SoundtrackArgs(soundtracks, prefix);
    if soundtrackResult.Err? {
      PlanStopsAtSoundtrack(chapters, videos, soundtracks, commentaries, subtitles, first);
      return Err(soundtrackResult.error);
    }
    ghost var s := Soundtracks(soundtracks, first).value;
    r := FinishCommand(path, chosen, chapters, videos, soundtracks, commentaries, subtitles, first, s,
                       chapterArgs + videoArgs + soundtrackResult.value.0, soundtrackResult.value.1);
  }

  /** The rest of BuildCommand once the soundtracks went through: the
      commentary and subtitle loops, and the command itself. */
  method FinishCommand(path: string, chosen: int, chapters: seq<Track>, videos: seq<Track>,
                       soundtracks: seq<Track>, commentaries: seq<Track>, subtitles: seq<Track>,
                       ghost first: nat, ghost s: Numbering, args: seq<string>, prefix: nat)
    returns (r: Result<seq<string>>)
    requires first == 1 + |chapters| + |videos|
    requires Soundtracks(soundtracks, first) == Ok(s)
    requires prefix == s.next
    requires args == Flatten(Numbered(chapters, 1, ChapterRole, ChapterExtension)) +
                     Flatten(Numbered(videos, 1 + |chapters|, VideoRole, VideoExtension)) +
                     Flatten(s.plan)
    ensures r == CommandOf(path, chosen, ExtractionPlan(chapters, videos, soundtracks, commentaries, subtitles))
  {
    var commentaryResult := CommentaryArgs(commentaries, prefix);
    if commentaryResult.Err? {
      PlanStopsAtCommentary(chapters, videos, soundtracks, commentaries, subtitles, first, s);
      return Err(commentaryResult.error);
    }
    ghost var m := Commentaries(commentaries, prefix).value;
    CommentariesLength(commentaries, prefix);
    r := FinishWithSubtitles(path, chosen, chapters, videos, soundtracks, commentaries, subtitles, first, s, m,
                             args, commentaryResult.value, prefix + |commentaries|);
  }

  /** Lines 253-262: the subtitles numbered after the commentaries, and the
      command put together. */
  method FinishWithSubtitles(path: string, chosen: int, chapters: seq<Track>, videos: seq<Track>,
                             soundtracks: seq<Track>, commentaries: seq<Track>, subtitles: seq<Track>,
                             ghost first: nat, ghost s: Numbering, ghost m: seq<Extract>,
                             args: seq<string>, commentaryArgs: seq<string>, prefix: nat)
    returns (r: Result<seq<string>>)
    requires first == 1 + |chapters| + |videos|
    requires Soundtracks(soundtracks, first) == Ok(s)
    requires Commentaries(commentaries, s.next) == Ok(m)
    requires args == Flatten(Numbered(chapters, 1, ChapterRole, ChapterExtension)) +
                     Flatten(Numbered(videos, 1 + |chapters|, VideoRole, VideoExtension)) +
                     Flatten(s.plan)
    requires commentaryArgs == Flatten(m)
    requires prefix == s.next + |m|
    ensures r == CommandOf(path, chosen, ExtractionPlan(chapters, videos, soundtracks, commentaries, subtitles))
  {
    var subtitleArgs, _ := NumberedArgs(subtitles, prefix, SubtitleRole, SubtitleExtension);
    CommandAssembled(path, chosen, chapters, videos, soundtracks, commentaries, subtitles, first, s, m,
                     args, commentaryArgs, prefix, subtitleArgs);
    r := Ok(Header(path, chosen) + (args + commentaryArgs + subtitleArgs));
  }

  // ---------------------------------------------------------------------
  // The whole run
  // ---------------------------------------------------------------------

  /** Lines 86-87 and 140-141: the output split at line breaks, every line cleaned. */
  function ScanLines(output: string): (lines: seq<string>)
    ensures |lines| == |SplitLines(output)|
    ensures forall i :: 0 <= i < |lines| && |lines[i]| > 0 ==>
      lines[i][0] != Backspace && lines[i][|lines[i]| - 1] != ' '
  {
    var parts := SplitLines(output);
    var lines := seq(|parts|, i requires 0 <= i < |parts| => CleanLine(parts[i]));
    assert forall i :: 0 <= i < |lines| && |lines[i]| > 0 ==>
      lines[i][0] != Backspace && lines[i][|lines[i]| - 1] != ' ' by {
      forall i | 0 <= i < |lines| && |lines[i]| > 0
        ensures lines[i][0] != Backspace && lines[i][|lines[i]| - 1] != ' '
      {
        assert lines[i] == CleanLine(parts[i]);
      }
    }
    lines
  }

  /** Line i of a scan is the i-th piece between two "\r\n" of the output,
      with backspaces trimmed from both ends and spaces from the right. */
  lemma ScanLinesTrimmed(output: string, i: nat)
    requires i < |ScanLines(output)|
    ensures NoLineBreak(SplitLines(output)[i])
    ensures exists front: nat, back: nat :: TrimmedFrom(SplitLines(output)[i], ScanLines(output)[i], front, back)
  {
    SplitLinesPieces(output);
    CleanLineInfix(SplitLines(output)[i]);
    assert ScanLines(output)[i] == CleanLine(SplitLines(output)[i]);
  }

  /** Lines 140-262 once the playlist `chosen` has been scanned into `lines`. */
  function TitleCommand(path: string, chosen: int, lines: seq<string>): (r: Result<seq<string>>)
    ensures SanityCheck(ChapterTracks(lines), VideoTracks(lines), LosslessSelection(lines, DefaultLanguages)).Some? ==>
      r == Err(SanityCheck(ChapterTracks(lines), VideoTracks(lines), LosslessSelection(lines, DefaultLanguages)).value)
    ensures r.Ok? ==> |ChapterTracks(lines)| == 1 && |VideoTracks(lines)| == 1
    ensures r.Ok? ==> |LosslessSelection(lines, DefaultLanguages)| == 1
    ensures r.Ok? ==> |r.value| >= 3 && r.value[..3] == Header(path, chosen)
  {
    var chapters := ChapterTracks(lines);
    var videos := VideoTracks(lines);
    var lossless := LosslessSelection(lines, DefaultLanguages);
    match SanityCheck(chapters, videos, lossless)
    case Some(e) => Err(e)
    case None =>
      CommandOf(path, chosen, ExtractionPlan(chapters, videos, Expanded(lossless),
                                             LossySelection(lines, DefaultLanguages, DefaultChannels),
                                             SubtitleSelection(lines, DefaultLanguages)))
  }

  /** The one lossless soundtrack of a title, once expanded, is written to
      files 3 and 4: first its FLAC copy, then the soundtrack itself. */
  lemma ExpandedSoundtracks(lossless: Track)
    requires StartsWith(lossless.description, "DTS Master Audio, ")
    requires Soundtracks(Expanded([lossless]), 3).Ok?
    ensures Soundtracks(Expanded([lossless]), 3) ==
      Ok(Numbering([Extract(lossless.id, Some(Target(3, AudioRole, ".flac")), false),
                    Extract(lossless.id, Some(Target(4, AudioRole, ".dts")), false)], 5))
  {
    var flac := FlacCopy(lossless);
    var soundtracks := Expanded([lossless]);
    assert soundtracks == [flac, lossless];
    LosslessExtensions(lossless);
    assert soundtracks[..|soundtracks| - 1] == soundtracks[..1] == [flac];
    assert soundtracks[..0] == [] && soundtracks[..2] == soundtracks;
    assert Soundtracks(soundtracks[..1], 3).Ok?;
    var head := Extract(lossless.id, Some(Target(3, AudioRole, ".flac")), false);
    var tail := Extract(lossless.id, Some(Target(4, AudioRole, ".dts")), false);
    SoundtracksSnoc(soundtracks, 0, 3, Numbering([], 3));
    assert SoundtrackExtract(flac, 3) == Ok(head);
    assert [] + [head] == [head];
    SoundtracksSnoc(soundtracks, 1, 3, Numbering([head], 4));
    assert [head] + [tail] == [head, tail];
  }

  /** One chapter, video or subtitle track numbered n adds its id and file n. */
  lemma NumberedSingle(t: Track, n: nat, role: string, extension: string)
    ensures Flatten(Numbered([t], n, role, extension)) == [t.id, Pad2(n) + role + extension]
  {
    var x := Extract(t.id, Some(Target(n, role, extension)), false);
    NumberedOne(t, n, role, extension);
    FlattenOne(x);
    assert Args(x) == [t.id, Pad2(n) + role + extension];
  }

  lemma NumberedOne(t: Track, n: nat, role: string, extension: string)
    ensures Numbered([t], n, role, extension) == [Extract(t.id, Some(Target(n, role, extension)), false)]
  {
    assert [t][..0] == [];
  }

  lemma FlattenOne(x: Extract)
    ensures Flatten([x]) == Args(x)
  {
    FlattenSnoc([], x);
    assert [] + [x] == [x];
  }

  /** The names of the files 01 to 04. */
  lemma FileNames()
    ensures Pad2(1) + ChapterRole + ChapterExtension == "01chapters.txt"
    ensures Pad2(2) + VideoRole + VideoExtension == "02video.mkv"
    ensures Pad2(3) + AudioRole + ".flac" == "03audio.flac"
    ensures Pad2(4) + AudioRole + ".dts" == "04audio.dts"
  {
    assert Pad2(1) == "01" && Pad2(2) == "02" && Pad2(3) == "03" && Pad2(4) == "04";
  }

  /** The arguments of the two soundtracks of one expanded lossless track. */
  lemma ExpandedArgs(id: string)
    ensures Flatten([Extract(id, Some(Target(3, AudioRole, ".flac")), false),
                     Extract(id, Some(Target(4, AudioRole, ".dts")), false)]) ==
      [id, "03audio.flac", id, "04audio.dts"]
  {
    var head := Extract(id, Some(Target(3, AudioRole, ".flac")), false);
    var tail := Extract(id, Some(Target(4, AudioRole, ".dts")), false);
    assert [head, tail] == [] + [head] + [tail];
    FlattenSnoc([], head);
    FlattenSnoc([head], tail);
    FileNames();
  }

  /** The files 01 to 04 of a layout with one chapter track, one video
      track and the two soundtracks of one expanded lossless track. */
  lemma SingleLayout(chapter: Track, video: Track, id: string, m: seq<Extract>, subtitles: seq<Track>)
    ensures |Flatten(Layout([chapter], [video], Numbering([Extract(id, Some(Target(3, AudioRole, ".flac")), false),
                                                             Extract(id, Some(Target(4, AudioRole, ".dts")), false)], 5),
                                m, subtitles))| >= 8
    ensures Flatten(Layout([chapter], [video], Numbering([Extract(id, Some(Target(3, AudioRole, ".flac")), false),
                                                          Extract(id, Some(Target(4, AudioRole, ".dts")), false)], 5),
                           m, subtitles))[..8] ==
      [chapter.id, "01chapters.txt", video.id, "02video.mkv", id, "03audio.flac", id, "04audio.dts"]
  {
    var s := Numbering([Extract(id, Some(Target(3, AudioRole, ".flac")), false),
                        Extract(id, Some(Target(4, AudioRole, ".dts")), false)], 5);
    var u := s.next + |m|;
    FlattenLayout([chapter], [video], s, m, subtitles, u);
    var a := Flatten(Numbered([chapter], 1, ChapterRole, ChapterExtension));
    var b := Flatten(Numbered([video], 1 + |[chapter]|, VideoRole, VideoExtension));
    assert 1 + |[chapter]| == 2;
    NumberedSingle(chapter, 1, ChapterRole, ChapterExtension);
    NumberedSingle(video, 2, VideoRole, VideoExtension);
    ExpandedArgs(id);
    FileNames();
    FirstEight(Flatten(Layout([chapter], [video], s, m, subtitles)), a, b, Flatten(s.plan), Flatten(m),
               Flatten(Numbered(subtitles, u, SubtitleRole, SubtitleExtension)),
               [chapter.id, "01chapters.txt", video.id, "02video.mkv", id, "03audio.flac", id, "04audio.dts"]);
  }

  lemma FirstEight(whole: seq<string>, a: seq<string>, b: seq<string>, c: seq<string>, d: seq<string>,
                   e: seq<string>, first: seq<string>)
    requires whole == a + b + c + d + e
    requires |first| == 8 && a + b + c == first
    ensures |whole| >= 8 && whole[..8] == first
  {
    assert whole == first + (d + e);
  }

  /** A title with one chapter track, one video track and one lossless
      soundtrack is extracted to files 01 to 04: the chapters, the video,
      the FLAC copy of the soundtrack and then the soundtrack itself. */
  lemma SingleTitleArgs(chapter: Track, video: Track, lossless: Track,
                        commentaries: seq<Track>, subtitles: seq<Track>)
    requires StartsWith(lossless.description, "DTS Master Audio, ")
    requires ExtractionPlan([chapter], [video], Expanded([lossless]), commentaries, subtitles).Ok?
    ensures |Flatten(ExtractionPlan([chapter], [video], Expanded([lossless]), commentaries, subtitles).value)| >= 8
    ensures Flatten(ExtractionPlan([chapter], [video], Expanded([lossless]), commentaries, subtitles).value)[..8] ==
      [chapter.id, "01chapters.txt", video.id, "02video.mkv",
       lossless.id, "03audio.flac", lossless.id, "04audio.dts"]
  {
    ExpandedSoundtracks(lossless);
    var s := Numbering([Extract(lossless.id, Some(Target(3, AudioRole, ".flac")), false),
                        Extract(lossless.id, Some(Target(4, AudioRole, ".dts")), false)], 5);
    var m := Commentaries(commentaries, s.next).value;
    PlanLaidOut([chapter], [video], Expanded([lossless]), commentaries, subtitles, 3, s, m);
    SingleLayout(chapter, video, lossless.id, m, subtitles);
  }

  /** The command for a title that passed the sanity checks starts with the
      header and the files 01 to 04. */
  lemma SaneCommand(path: string, chosen: int, chapters: seq<Track>, videos: seq<Track>, lossless: seq<Track>,
                    commentaries: seq<Track>, subtitles: seq<Track>)
    requires SanityCheck(chapters, videos, lossless) == None
    requires forall t :: t in lossless ==> StartsWith(t.description, "DTS Master Audio, ")
    requires CommandOf(path, chosen, ExtractionPlan(chapters, videos, Expanded(lossless), commentaries, subtitles)).Ok?
    ensures |chapters| == 1 && |videos| == 1 && |lossless| == 1
    ensures |CommandOf(path, chosen, ExtractionPlan(chapters, videos, Expanded(lossless), commentaries, subtitles)).value| >= 11
    ensures CommandOf(path, chosen, ExtractionPlan(chapters, videos, Expanded(lossless), commentaries, subtitles)).value[..11] ==
      Header(path, chosen) +
      [chapters[0].id, "01chapters.txt", videos[0].id, "02video.mkv",
       lossless[0].id, "03audio.flac", lossless[0].id, "04audio.dts"]
  {
    assert lossless[0] in lossless;
    SinglesPlan(chapters, videos, lossless, commentaries, subtitles);
    SingleTitleArgs(chapters[0], videos[0], lossless[0], commentaries, subtitles);
    var plan := ExtractionPlan(chapters, videos, Expanded(lossless), commentaries, subtitles);
    assert CommandOf(path, chosen, plan).value == Header(path, chosen) + Flatten(plan.value);
    HeaderThenArgs(Header(path, chosen), Flatten(plan.value),
                   [chapters[0].id, "01chapters.txt", videos[0].id, "02video.mkv",
                    lossless[0].id, "03audio.flac", lossless[0].id, "04audio.dts"]);
  }

  /** One track of each kind: the lists are the one-element lists. */
  lemma SinglesPlan(chapters: seq<Track>, videos: seq<Track>, lossless: seq<Track>,
                    commentaries: seq<Track>, subtitles: seq<Track>)
    requires |chapters| == 1 && |videos| == 1 && |lossless| == 1
    ensures ExtractionPlan(chapters, videos, Expanded(lossless), commentaries, subtitles) ==
            ExtractionPlan([chapters[0]], [videos[0]], Expanded([lossless[0]]), commentaries, subtitles)
  {
    Single(chapters);
    Single(videos);
    Single(lossless);
  }

  lemma Single(s: seq<Track>)
    requires |s| == 1
    ensures s == [s[0]]
  {
  }

  lemma HeaderThenArgs(header: seq<string>, args: seq<string>, first: seq<string>)
    requires |header| == 3 && |first| == 8
    requires |args| >= 8 && args[..8] == first
    ensures |header + args| >= 11 && (header + args)[..11] == header + first
  {
    assert (header + args)[..11] == header + args[..8];
  }

  /** A title command is built only when the title has exactly one chapter
      track, one video track and one lossless soundtrack, and it starts
      with the header and the files 01 to 04 for them. */
  lemma TitleCommandSuccess(path: string, chosen: int, lines: seq<string>)
    requires TitleCommand(path, chosen, lines).Ok?
    ensures |ChapterTracks(lines)| == 1 && |VideoTracks(lines)| == 1
    ensures |LosslessSelection(lines, DefaultLanguages)| == 1
    ensures |TitleCommand(path, chosen, lines).value| >= 11
    ensures TitleCommand(path, chosen, lines).value[..11] ==
      Header(path, chosen) +
      [ChapterTracks(lines)[0].id, "01chapters.txt", VideoTracks(lines)[0].id, "02video.mkv",
       LosslessSelection(lines, DefaultLanguages)[0].id, "03audio.flac",
       LosslessSelection(lines, DefaultLanguages)[0].id, "04audio.dts"]
  {
    SaneCommand(path, chosen, ChapterTracks(lines), VideoTracks(lines), LosslessSelection(lines, DefaultLanguages),
                LossySelection(lines, DefaultLanguages, DefaultChannels), SubtitleSelection(lines, DefaultLanguages));
  }

  /** What `demux` decides: the command line it prints, or why it gives up.
      `discScan` is the output of the playlist scan of `path` and
      `titleScan(n)` that of the scan of playlist n; `None` is a scan that
      failed. */
  function DemuxOutcome(path: string, user: Option<int>, discScan: Option<string>,
                        titleScan: int -> Option<string>): (r: Result<seq<string>>)
    ensures discScan.None? ==> r == Err(NotABluRay)
    ensures discScan.Some? && ParsedPlaylists(ScanLines(discScan.value)) == [] ==> r == Err(UnparseableScan)
    ensures r.Ok? ==> |r.value| >= 3 && r.value[0] == Eac3to && r.value[1] == path
  {
    match discScan
    case None => Err(NotABluRay)
    case Some(output) =>
      var playlists := ParsedPlaylists(ScanLines(output));
      if playlists == [] then Err(UnparseableScan)
      else
        match Selection(playlists, user)
        case Err(e) => Err(e)
        case Ok(chosen) =>
          match titleScan(chosen)
          case None => Err(UnreadablePlaylist(chosen))
          case Some(listing) => TitleCommand(path, chosen, ScanLines(listing))
  }

  /** Lines 73-266. */
  method Demux(path: string, user: Option<int>, discScan: Option<string>, titleScan: int -> Option<string>)
    returns (r: Result<seq<string>>)
    ensures r == DemuxOutcome(path, user, discScan, titleScan)
  {
    if discScan.None? {
      return Err(NotABluRay);
    }
    var playlists := ParsePlaylists(ScanLines(discScan.value));
    if playlists == [] {
      return Err(UnparseableScan);
    }
    var selection := SelectPlaylist(playlists, user);
    if selection.Err? {
      return Err(selection.error);
    }
    var chosen := selection.value;
    var listing := titleScan(chosen);
    if listing.None? {
      return Err(UnreadablePlaylist(chosen));
    }
    var tracks := ScanLines(listing.value);
    var chapters := ChapterTracks(tracks);
    var videos := VideoTracks(tracks);
    var lossless := LosslessAudioTracks(tracks, DefaultLanguages);
    var commentaries := LossyAudioTracks(tracks, DefaultLanguages, DefaultChannels);
    var subtitles := SubtitleTracks(tracks, DefaultLanguages);
    var problem := SanityCheck(chapters, videos, lossless);
    if problem.Some? {
      return Err(problem.value);
    }
    var soundtracks := ExpandLossless(lossless);
    r := BuildCommand(path, chosen, chapters, videos, soundtracks, commentaries, subtitles);
  }
}
