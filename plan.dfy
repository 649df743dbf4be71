/** What `demux` decides once the tracks are matched: the sanity checks,
    the FLAC copy of every lossless track, and the file every track is
    extracted to, numbered across the five roles (lines 149-262). */
module Plan {
  import opened Text
  import opened Outcomes
  import opened Tracks

  /** Lines 149-166: the first check that fails, in the order of the source. */
  function SanityCheck(chapters: seq<Track>, videos: seq<Track>, lossless: seq<Track>): (r: Option<Error>)
    ensures r == None <==> |chapters| == 1 && |videos| == 1 && |lossless| == 1
    ensures r == Some(NoChapters) <==> |chapters| == 0
    ensures r == Some(ManyChapters) <==> |chapters| > 1
    ensures r == Some(NoVideo) <==> |chapters| == 1 && |videos| == 0
    ensures r == Some(ManyVideos) <==> |chapters| == 1 && |videos| > 1
    ensures r == Some(NoLossless) <==> |chapters| == 1 && |videos| == 1 && |lossless| == 0
    ensures r == Some(ManyLossless) <==> |chapters| == 1 && |videos| == 1 && |lossless| > 1
  {
    if |chapters| == 0 then Some(NoChapters)
    else if |chapters| > 1 then Some(ManyChapters)
    else if |videos| == 0 then Some(NoVideo)
    else if |videos| > 1 then Some(ManyVideos)
    else if |lossless| == 0 then Some(NoLossless)
    else if |lossless| > 1 then Some(ManyLossless)
    else None
  }

  // ---------------------------------------------------------------------
  // FLAC expansion
  // ---------------------------------------------------------------------

  const FlacTag := "(FLAC)"

  /** `{'id': track['id'], 'description': ' '.join([FLACTAG, track['description']])}` */
  function FlacCopy(t: Track): (r: Track)
    ensures r.id == t.id
    ensures StartsWith(r.description, FlacTag + " ") && r.description[|FlacTag| + 1..] == t.description
  {
    Track(t.id, FlacTag + " " + t.description)
  }

  /** The soundtracks: each lossless track preceded by its FLAC copy. */
  function Expanded(lossless: seq<Track>): (s: seq<Track>)
    ensures |s| == 2 * |lossless|
    ensures forall i :: 0 <= i < |lossless| ==> s[2 * i] == FlacCopy(lossless[i]) && s[2 * i + 1] == lossless[i]
  {
    if lossless == [] then []
    else
      var front := lossless[..|lossless| - 1];
      var t := lossless[|lossless| - 1];
      var s := Expanded(front) + [FlacCopy(t), t];
      assert forall i :: 0 <= i < |front| ==> lossless[i] == front[i];
      s
  }

  /** Lines 169-174: the loop that appends the copy and then the original. */
  method ExpandLossless(lossless: seq<Track>) returns (soundtracks: seq<Track>)
    ensures soundtracks == Expanded(lossless)
  {
    soundtracks := [];
    for i := 0 to |lossless|
      invariant soundtracks == Expanded(lossless[..i])
    {
      assert lossless[..i + 1][..i] == lossless[..i];
      soundtracks := soundtracks + [FlacCopy(lossless[i])];
      soundtracks := soundtracks + [lossless[i]];
    }
    assert lossless[..|lossless|] == lossless;
  }

  // ---------------------------------------------------------------------
  // What each track contributes to the extraction command
  // ---------------------------------------------------------------------

  /** An output file, named `'%02d' % number + role + extension`. */
  datatype Target = Target(number: nat, role: string, extension: string)

  function FileName(t: Target): (r: string)
  {
    Pad2(t.number) + t.role + t.extension
  }

  /** The arguments one track adds: its id, the file it is written to (none
      for a raw/PCM soundtrack, whose id is left dangling), and
      `-keepDialnorm` when asked for. */
  datatype Extract = Extract(id: string, target: Option<Target>, keepDialnorm: bool)

  function Args(e: Extract): (r: seq<string>)
  {
    [e.id] + (if e.target.Some? then [FileName(e.target.value)] else []) +
    (if e.keepDialnorm then ["-keepDialnorm"] else [])
  }

  function Flatten(plan: seq<Extract>): (r: seq<string>)
  {
    if plan == [] then [] else Flatten(plan[..|plan| - 1]) + Args(plan[|plan| - 1])
  }

  lemma FlattenSnoc(plan: seq<Extract>, x: Extract)
    ensures Flatten(plan + [x]) == Flatten(plan) + Args(x)
  {
    assert (plan + [x])[..|plan|] == plan;
  }

  lemma {:induction false} FlattenAppend(a: seq<Extract>, b: seq<Extract>)
    ensures Flatten(a + b) == Flatten(a) + Flatten(b)
    decreases |b|
  {
    if b == [] {
      assert a + b == a;
    } else {
      var b' := b[..|b| - 1];
      assert (a + b)[..|a + b| - 1] == a + b';
      assert (a + b)[|a + b| - 1] == b[|b| - 1];
      FlattenAppend(a, b');
    }
  }

  /** Chapters, video and subtitles: track i is written to file `first + i`. */
  function Numbered(tracks: seq<Track>, first: nat, role: string, extension: string): (r: seq<Extract>)
    ensures |r| == |tracks|
  {
    if tracks == [] then []
    else
      Numbered(tracks[..|tracks| - 1], first, role, extension) +
      [Extract(tracks[|tracks| - 1].id, Some(Target(first + |tracks| - 1, role, extension)), false)]
  }

  lemma NumberedSnoc(tracks: seq<Track>, i: nat, first: nat, role: string, extension: string)
    requires i < |tracks|
    ensures Numbered(tracks[..i + 1], first, role, extension) ==
      Numbered(tracks[..i], first, role, extension) + [Extract(tracks[i].id, Some(Target(first + i, role, extension)), false)]
  {
    assert tracks[..i + 1][..i] == tracks[..i];
  }

  const AudioRole := "audio"
  const CommentaryRole := "commentary"

  const StrangeSetupRegex := Regex("strange setup")
  const SixOneRegex := Regex("6.1 channels")
  const DialnormRegex := Regex("dialnorm")

  /** Lines 222-231: the extension of a soundtrack file, none for raw/PCM. */
  function SoundtrackExtension(description: string): (r: Option<string>)
    ensures r == if StartsWith(description, "(FLAC)") then Some(".flac")
                 else if StartsWith(description, "DTS") then Some(".dts")
                 else if StartsWith(description, "TrueHD") then Some(".thd")
                 else None
  {
    LiteralMatch("(FLAC)", description);
    LiteralMatch("DTS", description);
    LiteralMatch("TrueHD", description);
    if MatchesAt(Regex("(FLAC)"), description) then Some(".flac")
    else if MatchesAt(Regex("DTS"), description) then Some(".dts")
    else if MatchesAt(Regex("TrueHD"), description) then Some(".thd")
    else None
  }

  /** Lines 213-232 for one soundtrack, when `number` is the next free file number. */
  function SoundtrackExtract(t: Track, number: nat): (r: Result<Extract>)
    ensures r.Err? <==> Refused(t)
    ensures r.Err? ==> r.error == RefusalOf(t)
    ensures r.Ok? ==> r.value.id == t.id && !r.value.keepDialnorm
    ensures r.Ok? ==> (r.value.target.Some? <==> SoundtrackExtension(t.description).Some?)
    ensures r.Ok? && r.value.target.Some? ==>
      r.value.target.value == Target(number, AudioRole, SoundtrackExtension(t.description).value)
  {
    if Search(StrangeSetupRegex, t.description) then Err(StrangeSetup(t.id))
    else if Search(SixOneRegex, t.description) then Err(SixOneChannels(t.id))
    else
      match SoundtrackExtension(t.description)
      case Some(extension) => Ok(Extract(t.id, Some(Target(number, AudioRole, extension)), false))
      case None => Ok(Extract(t.id, None, false))
  }

  /** A plan for a run of tracks and the next free file number after it. */
  datatype Numbering = Numbering(plan: seq<Extract>, next: nat)

  /** The soundtrack loop: a raw/PCM track uses no file number. */
  function Soundtracks(tracks: seq<Track>, first: nat): (r: Result<Numbering>)
    ensures r.Ok? ==> |r.value.plan| == |tracks| && first <= r.value.next <= first + |tracks|
  {
    if tracks == [] then Ok(Numbering([], first))
    else
      match Soundtracks(tracks[..|tracks| - 1], first)
      case Err(e) => Err(e)
      case Ok(n) =>
        match SoundtrackExtract(tracks[|tracks| - 1], n.next)
        case Err(e) => Err(e)
        case Ok(x) => Ok(Numbering(n.plan + [x], if x.target.Some? then n.next + 1 else n.next))
  }

  lemma SoundtracksSnoc(tracks: seq<Track>, i: nat, first: nat, n: Numbering)
    requires i < |tracks| && Soundtracks(tracks[..i], first) == Ok(n)
    ensures Soundtracks(tracks[..i + 1], first) ==
      match SoundtrackExtract(tracks[i], n.next)
      case Err(e) => Err(e)
      case Ok(x) => Ok(Numbering(n.plan + [x], if x.target.Some? then n.next + 1 else n.next))
  {
    assert tracks[..i + 1][..i] == tracks[..i];
  }

  /** The snoc step of `Soundtracks` when track i yields extract `x`. */
  lemma SoundtracksSnocOk(tracks: seq<Track>, i: nat, first: nat, n: Numbering, x: Extract, next: nat)
    requires i < |tracks| && Soundtracks(tracks[..i], first) == Ok(n)
    requires SoundtrackExtract(tracks[i], n.next) == Ok(x)
    requires next == if x.target.Some? then n.next + 1 else n.next
    ensures Soundtracks(tracks[..i + 1], first) == Ok(Numbering(n.plan + [x], next))
  {
    SoundtracksSnoc(tracks, i, first, n);
  }

  /** Lines 237-240: the extension of a commentary file. */
  function CommentaryExtension(description: string): (r: Option<string>)
    ensures r == if StartsWith(description, "AC3") then Some(".ac3")
                 else if StartsWith(description, "DTS") then Some(".dts")
                 else None
  {
    LiteralMatch("AC3", description);
    LiteralMatch("DTS", description);
    if MatchesAt(Regex("AC3"), description) then Some(".ac3")
    else if MatchesAt(Regex("DTS"), description) then Some(".dts")
    else None
  }

  /** Lines 236-249 for one commentary written to file `number`. */
  function CommentaryExtract(t: Track, number: nat): (r: Result<Extract>)
    ensures r.Err? <==> CommentaryExtension(t.description).None?
    ensures r.Err? ==> r.error == UnknownCommentary(t.description)
    ensures r.Ok? ==> r.value.id == t.id && r.value.target.Some?
    ensures r.Ok? ==> r.value.target.value.number == number && r.value.target.value.role == CommentaryRole
    ensures r.Ok? ==> (r.value.keepDialnorm <==> Search(DialnormRegex, t.description))
  {
    match CommentaryExtension(t.description)
    case Some(extension) =>
      Ok(Extract(t.id, Some(Target(number, CommentaryRole, extension)), Search(DialnormRegex, t.description)))
    case None => Err(UnknownCommentary(t.description))
  }

  /** The commentary loop: commentary i is written to file `first + i`. */
  function Commentaries(tracks: seq<Track>, first: nat): (r: Result<seq<Extract>>)
    ensures r.Ok? ==> |r.value| == |tracks|
  {
    if tracks == [] then Ok([])
    else
      match Commentaries(tracks[..|tracks| - 1], first)
      case Err(e) => Err(e)
      case Ok(plan) =>
        match CommentaryExtract(tracks[|tracks| - 1], first + |tracks| - 1)
        case Err(e) => Err(e)
        case Ok(x) => Ok(plan + [x])
  }

  lemma CommentariesSnoc(tracks: seq<Track>, i: nat, first: nat, plan: seq<Extract>)
    requires i < |tracks| && Commentaries(tracks[..i], first) == Ok(plan)
    ensures Commentaries(tracks[..i + 1], first) ==
      match CommentaryExtract(tracks[i], first + i)
      case Err(e) => Err(e)
      case Ok(x) => Ok(plan + [x])
  {
    assert tracks[..i + 1][..i] == tracks[..i];
  }

  /** Lines 198-262: every track in the role order chapters, video,
      soundtracks, commentaries, subtitles, with one counter for the file
      numbers that starts at 1. */
  function ExtractionPlan(chapters: seq<Track>, videos: seq<Track>, soundtracks: seq<Track>,
                          commentaries: seq<Track>, subtitles: seq<Track>): (r: Result<seq<Extract>>)
    ensures r.Ok? ==> |r.value| == |chapters| + |videos| + |soundtracks| + |commentaries| + |subtitles|
  {
    match Soundtracks(soundtracks, 1 + |chapters| + |videos|)
    case Err(e) => Err(e)
    case Ok(s) =>
      match Commentaries(commentaries, s.next)
      case Err(e) => Err(e)
      case Ok(m) => Ok(Layout(chapters, videos, s, m, subtitles))
  }

  const ChapterRole := "chapters"
  const ChapterExtension := ".txt"
  const VideoRole := "video"
  const VideoExtension := ".mkv"
  const SubtitleRole := "subtitles"
  const SubtitleExtension := ".sup"

  /** A soundtrack plan that failed on the first j tracks fails the same way on all of them. */
  lemma {:induction false} SoundtracksStop(tracks: seq<Track>, first: nat, j: nat)
    requires j <= |tracks|
    requires Soundtracks(tracks[..j], first).Err?
    ensures Soundtracks(tracks, first) == Soundtracks(tracks[..j], first)
    decreases |tracks|
  {
    if j < |tracks| {
      var front := tracks[..|tracks| - 1];
      assert front[..j] == tracks[..j];
      SoundtracksStop(front, first, j);
    } else {
      assert tracks[..j] == tracks;
    }
  }

  lemma {:induction false} CommentariesStop(tracks: seq<Track>, first: nat, j: nat)
    requires j <= |tracks|
    requires Commentaries(tracks[..j], first).Err?
    ensures Commentaries(tracks, first) == Commentaries(tracks[..j], first)
    decreases |tracks|
  {
    if j < |tracks| {
      var front := tracks[..|tracks| - 1];
      assert front[..j] == tracks[..j];
      CommentariesStop(front, first, j);
    } else {
      assert tracks[..j] == tracks;
    }
  }

  /** A soundtrack that mentions "strange setup" or "6.1 channels". */
  predicate Refused(t: Track)
  {
    Search(StrangeSetupRegex, t.description) || Search(SixOneRegex, t.description)
  }

  /** The error the soundtrack loop reports for a refused track: strange setup is checked first. */
  function RefusalOf(t: Track): Error
  {
    if Search(StrangeSetupRegex, t.description) then StrangeSetup(t.id) else SixOneChannels(t.id)
  }

  /** The soundtrack loop stops at the first refused track, with that track's error. */
  lemma SoundtracksFirstError(tracks: seq<Track>, first: nat, i: nat)
    requires i < |tracks| && Refused(tracks[i])
    requires forall j :: 0 <= j < i ==> !Refused(tracks[j])
    ensures Soundtracks(tracks, first) == Err(RefusalOf(tracks[i]))
  {
    var front := tracks[..i];
    forall j | 0 <= j < |front|
      ensures !(Search(StrangeSetupRegex, front[j].description) || Search(SixOneRegex, front[j].description))
    {
      assert front[j] == tracks[j];
    }
    SoundtracksFail(front, first);
    var n := Soundtracks(front, first).value;
    SoundtracksSnoc(tracks, i, first, n);
    SoundtracksStop(tracks, first, i + 1);
  }

  /** The commentary loop stops at the first commentary that is neither AC3
      nor DTS, with that commentary's description. */
  lemma CommentariesFirstError(tracks: seq<Track>, first: nat, i: nat)
    requires i < |tracks| && CommentaryExtension(tracks[i].description).None?
    requires forall j :: 0 <= j < i ==> CommentaryExtension(tracks[j].description).Some?
    ensures Commentaries(tracks, first) == Err(UnknownCommentary(tracks[i].description))
  {
    var front := tracks[..i];
    forall j | 0 <= j < |front|
      ensures CommentaryExtension(front[j].description).Some?
    {
      assert front[j] == tracks[j];
    }
    CommentariesFail(front, first);
    var m := Commentaries(front, first).value;
    CommentariesSnoc(tracks, i, first, m);
    CommentariesStop(tracks, first, i + 1);
  }

  /** The whole plan fails with the error of the first refused soundtrack. */
  lemma PlanFirstSoundtrackError(chapters: seq<Track>, videos: seq<Track>, soundtracks: seq<Track>,
                                 commentaries: seq<Track>, subtitles: seq<Track>, i: nat)
    requires i < |soundtracks| && Refused(soundtracks[i])
    requires forall j :: 0 <= j < i ==> !Refused(soundtracks[j])
    ensures ExtractionPlan(chapters, videos, soundtracks, commentaries, subtitles) == Err(RefusalOf(soundtracks[i]))
  {
    SoundtracksFirstError(soundtracks, 1 + |chapters| + |videos|, i);
  }

  /** With no refused soundtrack, the whole plan fails with the first unknown commentary. */
  lemma PlanFirstCommentaryError(chapters: seq<Track>, videos: seq<Track>, soundtracks: seq<Track>,
                                 commentaries: seq<Track>, subtitles: seq<Track>, i: nat)
    requires forall j :: 0 <= j < |soundtracks| ==> !Refused(soundtracks[j])
    requires i < |commentaries| && CommentaryExtension(commentaries[i].description).None?
    requires forall j :: 0 <= j < i ==> CommentaryExtension(commentaries[j].description).Some?
    ensures ExtractionPlan(chapters, videos, soundtracks, commentaries, subtitles) ==
      Err(UnknownCommentary(commentaries[i].description))
  {
    var first := 1 + |chapters| + |videos|;
    SoundtracksFail(soundtracks, first);
    var s := Soundtracks(soundtracks, first).value;
    CommentariesFirstError(commentaries, s.next, i);
  }

  /** The plan stops at the first soundtrack that cannot be handled. */
  lemma PlanStopsAtSoundtrack(chapters: seq<Track>, videos: seq<Track>, soundtracks: seq<Track>,
                              commentaries: seq<Track>, subtitles: seq<Track>, first: nat)
    requires first == 1 + |chapters| + |videos|
    requires Soundtracks(soundtracks, first).Err?
    ensures ExtractionPlan(chapters, videos, soundtracks, commentaries, subtitles) ==
      Err(Soundtracks(soundtracks, first).error)
  {
  }

  /** After the soundtracks, the plan stops at the first unknown commentary. */
  lemma PlanStopsAtCommentary(chapters: seq<Track>, videos: seq<Track>, soundtracks: seq<Track>,
                              commentaries: seq<Track>, subtitles: seq<Track>, first: nat, s: Numbering)
    requires first == 1 + |chapters| + |videos|
    requires Soundtracks(soundtracks, first) == Ok(s)
    requires Commentaries(commentaries, s.next).Err?
    ensures ExtractionPlan(chapters, videos, soundtracks, commentaries, subtitles) ==
      Err(Commentaries(commentaries, s.next).error)
  {
  }

  /** A plan whose soundtracks and commentaries all go through is laid out in role order. */
  lemma PlanLaidOut(chapters: seq<Track>, videos: seq<Track>, soundtracks: seq<Track>,
                    commentaries: seq<Track>, subtitles: seq<Track>, first: nat, s: Numbering, m: seq<Extract>)
    requires first == 1 + |chapters| + |videos|
    requires Soundtracks(soundtracks, first) == Ok(s)
    requires Commentaries(commentaries, s.next) == Ok(m)
    ensures ExtractionPlan(chapters, videos, soundtracks, commentaries, subtitles) ==
      Ok(Layout(chapters, videos, s, m, subtitles))
  {
  }

  /** The plan in role order, once the soundtracks and commentaries are planned. */
  function Layout(chapters: seq<Track>, videos: seq<Track>, s: Numbering, m: seq<Extract>,
                  subtitles: seq<Track>): (r: seq<Extract>)
    ensures |r| == |chapters| + |videos| + |s.plan| + |m| + |subtitles|
  {
    Numbered(chapters, 1, ChapterRole, ChapterExtension) +
    Numbered(videos, 1 + |chapters|, VideoRole, VideoExtension) +
    s.plan + m +
    Numbered(subtitles, s.next + |m|, SubtitleRole, SubtitleExtension)
  }

  const Eac3to := "C:\\Program Files (x86)\\eac3to\\eac3to.exe"

  /** `[eac3to, path, '%d)' % chosen_playlist]` */
  function Header(path: string, chosen: int): (r: seq<string>)
    ensures |r| == 3 && r[0] == Eac3to && r[1] == path
    ensures |r[2]| >= 2 && r[2][|r[2]| - 1] == ')'
    ensures chosen >= 0 ==> AllDigits(r[2][..|r[2]| - 1]) && DigitsValue(r[2][..|r[2]| - 1]) == chosen
    ensures chosen < 0 ==> r[2][0] == '-' && AllDigits(r[2][1..|r[2]| - 1]) && DigitsValue(r[2][1..|r[2]| - 1]) == -chosen
  {
    assert (IntToString(chosen) + ")")[..|IntToString(chosen)|] == IntToString(chosen);
    assert (IntToString(chosen) + ")")[1..|IntToString(chosen)|] == IntToString(chosen)[1..];
    [Eac3to, path, IntToString(chosen) + ")"]
  }

  /** Position k of `cmd` holds what extract `x` asks for: its id, then its
      file (if any), then `-keepDialnorm` (if asked for). */
  predicate Carries(cmd: seq<string>, k: nat, x: Extract)
  {
    var flag := if x.target.Some? then k + 2 else k + 1;
    k < |cmd| && cmd[k] == x.id &&
    (x.target.Some? ==> k + 1 < |cmd| && cmd[k + 1] == FileName(x.target.value)) &&
    (x.keepDialnorm ==> flag < |cmd| && cmd[flag] == "-keepDialnorm")
  }

  /** The arguments of extract i sit in `Flatten(plan)` right after those of
      the extracts before it. */
  lemma FlattenSlot(plan: seq<Extract>, i: nat)
    requires i < |plan|
    ensures Carries(Flatten(plan), |Flatten(plan[..i])|, plan[i])
  {
    assert plan[..i] + [plan[i]] == plan[..i + 1];
    FlattenSnoc(plan[..i], plan[i]);
    assert plan[..i + 1] + plan[i + 1..] == plan;
    FlattenAppend(plan[..i + 1], plan[i + 1..]);
    var k := |Flatten(plan[..i])|;
    assert Flatten(plan)[k..k + |Args(plan[i])|] == Args(plan[i]);
  }

  lemma CarriesShift(h: seq<string>, c: seq<string>, k: nat, x: Extract)
    requires Carries(c, k, x)
    ensures Carries(h + c, |h| + k, x)
  {
  }

  /** Lines 257-262: the header followed by the arguments of every track. */
  function CommandOf(path: string, chosen: int, plan: Result<seq<Extract>>): (r: Result<seq<string>>)
    ensures r.Ok? <==> plan.Ok?
    ensures r.Err? ==> r.error == plan.error
    ensures r.Ok? ==> |r.value| == 3 + |Flatten(plan.value)| && r.value[..3] == Header(path, chosen)
    ensures r.Ok? ==> r.value[3..] == Flatten(plan.value)
    ensures r.Ok? ==> forall i :: 0 <= i < |plan.value| ==>
      Carries(r.value, 3 + |Flatten(plan.value[..i])|, plan.value[i])
  {
    match plan
    case Ok(p) =>
      var h := Header(path, chosen);
      assert forall i :: 0 <= i < |p| ==> Carries(h + Flatten(p), 3 + |Flatten(p[..i])|, p[i]) by {
        forall i | 0 <= i < |p|
          ensures Carries(h + Flatten(p), 3 + |Flatten(p[..i])|, p[i])
        {
          FlattenSlot(p, i);
          CarriesShift(h, Flatten(p), |Flatten(p[..i])|, p[i]);
        }
      }
      Ok(h + Flatten(p))
    case Err(e) => Err(e)
  }

  // ---------------------------------------------------------------------
  // Properties of the plan
  // ---------------------------------------------------------------------

  /** The file numbers of a plan, in order. */
  function Numbers(plan: seq<Extract>): seq<nat>
  {
    if plan == [] then []
    else Numbers(plan[..|plan| - 1]) + (if plan[|plan| - 1].target.Some? then [plan[|plan| - 1].target.value.number] else [])
  }

  /** The track ids of a plan, in order. */
  function PlanIds(plan: seq<Extract>): seq<string>
  {
    if plan == [] then [] else PlanIds(plan[..|plan| - 1]) + [plan[|plan| - 1].id]
  }

  function TrackIds(tracks: seq<Track>): seq<string>
  {
    if tracks == [] then [] else TrackIds(tracks[..|tracks| - 1]) + [tracks[|tracks| - 1].id]
  }

  /** ns is lo, lo + 1, ..., hi - 1. */
  predicate Consecutive(ns: seq<nat>, lo: nat, hi: nat)
  {
    lo + |ns| == hi && forall i :: 0 <= i < |ns| ==> Nth(ns, i) == lo + i
  }

  /** ns[i], named so that facts about whole runs of numbers are used only
      where an element is asked for. */
  function Nth(ns: seq<nat>, i: nat): nat
    requires i < |ns|
  {
    ns[i]
  }

  lemma {:induction false} NumbersAppend(a: seq<Extract>, b: seq<Extract>)
    ensures Numbers(a + b) == Numbers(a) + Numbers(b)
    decreases |b|
  {
    if b == [] {
      assert a + b == a;
    } else {
      var b' := b[..|b| - 1];
      assert (a + b)[..|a + b| - 1] == a + b';
      assert (a + b)[|a + b| - 1] == b[|b| - 1];
      NumbersAppend(a, b');
    }
  }

  lemma {:induction false} PlanIdsAppend(a: seq<Extract>, b: seq<Extract>)
    ensures PlanIds(a + b) == PlanIds(a) + PlanIds(b)
    decreases |b|
  {
    if b == [] {
      assert a + b == a;
    } else {
      var b' := b[..|b| - 1];
      assert (a + b)[..|a + b| - 1] == a + b';
      assert (a + b)[|a + b| - 1] == b[|b| - 1];
      PlanIdsAppend(a, b');
    }
  }

  lemma OneNumber(n: nat)
    ensures Consecutive([n], n, n + 1)
  {
    assert Nth([n], 0) == n;
  }

  lemma ConsecutiveAppend(a: seq<nat>, b: seq<nat>, lo: nat, mid: nat, hi: nat)
    requires Consecutive(a, lo, mid) && Consecutive(b, mid, hi)
    ensures Consecutive(a + b, lo, hi)
  {
    forall i | 0 <= i < |a + b|
      ensures Nth(a + b, i) == lo + i
    {
      if i < |a| {
        assert Nth(a + b, i) == Nth(a, i);
      } else {
        assert Nth(a + b, i) == Nth(b, i - |a|);
      }
    }
  }

  /** Appending an extract written to file n extends a run of numbers ending before n. */
  lemma NumberStep(p: seq<Extract>, x: Extract, first: nat, n: nat)
    requires Consecutive(Numbers(p), first, n)
    requires x.target.Some? && x.target.value.number == n
    ensures Consecutive(Numbers(p + [x]), first, n + 1)
  {
    assert (p + [x])[..|p + [x]| - 1] == p;
    assert Numbers(p + [x]) == Numbers(p) + [n];
    OneNumber(n);
    ConsecutiveAppend(Numbers(p), [n], first, n, n + 1);
  }

  /** A numbered role uses the numbers first, first + 1, ... and keeps the ids. */
  lemma {:induction false} NumberedShape(tracks: seq<Track>, first: nat, role: string, extension: string)
    ensures Consecutive(Numbers(Numbered(tracks, first, role, extension)), first, first + |tracks|)
    ensures PlanIds(Numbered(tracks, first, role, extension)) == TrackIds(tracks)
  {
    if tracks != [] {
      var front := tracks[..|tracks| - 1];
      NumberedShape(front, first, role, extension);
      var p := Numbered(front, first, role, extension);
      var n := first + |tracks| - 1;
      var x := Extract(tracks[|tracks| - 1].id, Some(Target(n, role, extension)), false);
      assert Numbered(tracks, first, role, extension) == p + [x];
      NumberStep(p, x, first, n);
      PlanIdsSnoc(p, x);
    }
  }

  lemma PlanIdsSnoc(p: seq<Extract>, x: Extract)
    ensures PlanIds(p + [x]) == PlanIds(p) + [x.id]
  {
    assert (p + [x])[..|p|] == p;
  }

  /** How many soundtracks get a file: all but the raw/PCM ones. */
  function Encoded(tracks: seq<Track>): nat
  {
    if tracks == [] then 0
    else Encoded(tracks[..|tracks| - 1]) + (if SoundtrackExtension(tracks[|tracks| - 1].description).Some? then 1 else 0)
  }

  /** The soundtracks use the numbers first, ..., next - 1, one per encoded
      track, and every soundtrack id is passed, the raw/PCM ones too. */
  lemma {:induction false} SoundtracksShape(tracks: seq<Track>, first: nat)
    requires Soundtracks(tracks, first).Ok?
    ensures Soundtracks(tracks, first).value.next == first + Encoded(tracks)
    ensures Consecutive(Numbers(Soundtracks(tracks, first).value.plan), first, Soundtracks(tracks, first).value.next)
    ensures PlanIds(Soundtracks(tracks, first).value.plan) == TrackIds(tracks)
  {
    if tracks != [] {
      var front := tracks[..|tracks| - 1];
      var t := tracks[|tracks| - 1];
      SoundtracksShape(front, first);
      var n := Soundtracks(front, first).value;
      var x := SoundtrackExtract(t, n.next).value;
      var p := n.plan + [x];
      assert p[..|p| - 1] == n.plan;
      if x.target.Some? {
        assert Numbers(p) == Numbers(n.plan) + [n.next];
        OneNumber(n.next);
        ConsecutiveAppend(Numbers(n.plan), [n.next], first, n.next, n.next + 1);
      } else {
        assert Numbers(p) == Numbers(n.plan) + [];
        assert Numbers(n.plan) + [] == Numbers(n.plan);
      }
    }
  }

  /** Every commentary that goes through gets one extract. */
  lemma {:induction false} CommentariesLength(tracks: seq<Track>, first: nat)
    requires Commentaries(tracks, first).Ok?
    ensures |Commentaries(tracks, first).value| == |tracks|
  {
    if tracks != [] {
      CommentariesLength(tracks[..|tracks| - 1], first);
    }
  }

  /** The last commentary of a run that goes through is appended to the plan of the others. */
  lemma CommentariesLast(tracks: seq<Track>, first: nat)
    requires tracks != [] && Commentaries(tracks, first).Ok?
    ensures Commentaries(tracks[..|tracks| - 1], first).Ok?
    ensures CommentaryExtract(tracks[|tracks| - 1], first + |tracks| - 1).Ok?
    ensures Commentaries(tracks, first).value ==
            Commentaries(tracks[..|tracks| - 1], first).value + [CommentaryExtract(tracks[|tracks| - 1], first + |tracks| - 1).value]
  {
  }

  /** Commentary i uses number first + i, and every commentary id is passed. */
  lemma {:induction false} CommentariesShape(tracks: seq<Track>, first: nat)
    requires Commentaries(tracks, first).Ok?
    ensures |Commentaries(tracks, first).value| == |tracks|
    ensures Consecutive(Numbers(Commentaries(tracks, first).value), first, first + |tracks|)
    ensures PlanIds(Commentaries(tracks, first).value) == TrackIds(tracks)
  {
    CommentariesLength(tracks, first);
    if tracks != [] {
      var front := tracks[..|tracks| - 1];
      CommentariesLast(tracks, first);
      CommentariesShape(front, first);
      var p := Commentaries(front, first).value;
      var n := first + |front|;
      var x := CommentaryExtract(tracks[|tracks| - 1], n).value;
      assert Commentaries(tracks, first).value == p + [x];
      NumberStep(p, x, first, n);
      PlanIdsSnoc(p, x);
    }
  }


  lemma ConcatNumbers(c: seq<Extract>, v: seq<Extract>, s: seq<Extract>, m: seq<Extract>, u: seq<Extract>,
                      a: nat, b: nat, d: nat, e: nat, f: nat, g: nat)
    requires Consecutive(Numbers(c), a, b) && Consecutive(Numbers(v), b, d) && Consecutive(Numbers(s), d, e)
    requires Consecutive(Numbers(m), e, f) && Consecutive(Numbers(u), f, g)
    ensures Consecutive(Numbers(c + v + s + m + u), a, g)
  {
    NumbersAppend(c, v);
    NumbersAppend(c + v, s);
    NumbersAppend(c + v + s, m);
    NumbersAppend(c + v + s + m, u);
    ConsecutiveAppend(Numbers(c), Numbers(v), a, b, d);
    ConsecutiveAppend(Numbers(c + v), Numbers(s), a, d, e);
    ConsecutiveAppend(Numbers(c + v + s), Numbers(m), a, e, f);
    ConsecutiveAppend(Numbers(c + v + s + m), Numbers(u), a, f, g);
  }

  lemma ConcatIds(c: seq<Extract>, v: seq<Extract>, s: seq<Extract>, m: seq<Extract>, u: seq<Extract>)
    ensures PlanIds(c + v + s + m + u) == PlanIds(c) + PlanIds(v) + PlanIds(s) + PlanIds(m) + PlanIds(u)
  {
    PlanIdsAppend(c, v);
    PlanIdsAppend(c + v, s);
    PlanIdsAppend(c + v + s, m);
    PlanIdsAppend(c + v + s + m, u);
  }

  lemma LayoutParts(chapters: seq<Track>, videos: seq<Track>, s: Numbering, m: seq<Extract>, subtitles: seq<Track>,
                    subtitleFirst: nat)
    requires subtitleFirst == s.next + |m|
    ensures Layout(chapters, videos, s, m, subtitles) ==
      Numbered(chapters, 1, ChapterRole, ChapterExtension) + Numbered(videos, 1 + |chapters|, VideoRole, VideoExtension) +
      s.plan + m + Numbered(subtitles, subtitleFirst, SubtitleRole, SubtitleExtension)
  {
  }

  /** A plan laid out from consecutively numbered soundtracks and
      commentaries is numbered 1, 2, ... without gaps. */
  lemma LayoutNumbers(chapters: seq<Track>, videos: seq<Track>, s: Numbering, m: seq<Extract>, subtitles: seq<Track>)
    requires Consecutive(Numbers(s.plan), 1 + |chapters| + |videos|, s.next)
    requires Consecutive(Numbers(m), s.next, s.next + |m|)
    ensures Consecutive(Numbers(Layout(chapters, videos, s, m, subtitles)), 1, s.next + |m| + |subtitles|)
  {
    var b := 1 + |chapters|;
    var d := b + |videos|;
    var f := s.next + |m|;
    LayoutParts(chapters, videos, s, m, subtitles, f);
    NumberedShape(chapters, 1, ChapterRole, ChapterExtension);
    NumberedShape(videos, b, VideoRole, VideoExtension);
    NumberedShape(subtitles, f, SubtitleRole, SubtitleExtension);
    ConcatNumbers(Numbered(chapters, 1, ChapterRole, ChapterExtension), Numbered(videos, b, VideoRole, VideoExtension),
                  s.plan, m, Numbered(subtitles, f, SubtitleRole, SubtitleExtension), 1, b, d, s.next, f, f + |subtitles|);
  }

  /** A plan laid out from five parts lists their ids in role order. */
  lemma LayoutIds(chapters: seq<Track>, videos: seq<Track>, s: Numbering, m: seq<Extract>, subtitles: seq<Track>)
    ensures PlanIds(Layout(chapters, videos, s, m, subtitles)) ==
      TrackIds(chapters) + TrackIds(videos) + PlanIds(s.plan) + PlanIds(m) + TrackIds(subtitles)
  {
    var b := 1 + |chapters|;
    var f := s.next + |m|;
    LayoutParts(chapters, videos, s, m, subtitles, f);
    NumberedShape(chapters, 1, ChapterRole, ChapterExtension);
    NumberedShape(videos, b, VideoRole, VideoExtension);
    NumberedShape(subtitles, f, SubtitleRole, SubtitleExtension);
    ConcatIds(Numbered(chapters, 1, ChapterRole, ChapterExtension), Numbered(videos, b, VideoRole, VideoExtension),
              s.plan, m, Numbered(subtitles, f, SubtitleRole, SubtitleExtension));
  }

  /** On success the files are numbered 1, 2, ..., N without gaps in the
      order of the plan, where N counts every track but the raw/PCM
      soundtracks. */
  lemma PlanNumbering(chapters: seq<Track>, videos: seq<Track>, soundtracks: seq<Track>,
                      commentaries: seq<Track>, subtitles: seq<Track>)
    requires ExtractionPlan(chapters, videos, soundtracks, commentaries, subtitles).Ok?
    ensures Consecutive(Numbers(ExtractionPlan(chapters, videos, soundtracks, commentaries, subtitles).value), 1,
                        1 + |chapters| + |videos| + Encoded(soundtracks) + |commentaries| + |subtitles|)
  {
    var first := 1 + |chapters| + |videos|;
    var s := Soundtracks(soundtracks, first).value;
    var m := Commentaries(commentaries, s.next).value;
    PlanLaidOut(chapters, videos, soundtracks, commentaries, subtitles, first, s, m);
    SoundtracksShape(soundtracks, first);
    CommentariesShape(commentaries, s.next);
    LayoutNumbers(chapters, videos, s, m, subtitles);
  }

  /** On success every track id is passed once, in the role order chapters,
      video, soundtracks, commentaries, subtitles. */
  lemma PlanIdOrder(chapters: seq<Track>, videos: seq<Track>, soundtracks: seq<Track>,
                    commentaries: seq<Track>, subtitles: seq<Track>)
    requires ExtractionPlan(chapters, videos, soundtracks, commentaries, subtitles).Ok?
    ensures PlanIds(ExtractionPlan(chapters, videos, soundtracks, commentaries, subtitles).value) ==
      TrackIds(chapters) + TrackIds(videos) + TrackIds(soundtracks) + TrackIds(commentaries) + TrackIds(subtitles)
  {
    var first := 1 + |chapters| + |videos|;
    var s := Soundtracks(soundtracks, first).value;
    var m := Commentaries(commentaries, s.next).value;
    PlanLaidOut(chapters, videos, soundtracks, commentaries, subtitles, first, s, m);
    SoundtracksShape(soundtracks, first);
    CommentariesShape(commentaries, s.next);
    LayoutIds(chapters, videos, s, m, subtitles);
  }

  /** Some soundtrack mentions "strange setup" or "6.1 channels". */
  predicate Unsupported(tracks: seq<Track>)
  {
    exists i :: 0 <= i < |tracks| && (Search(StrangeSetupRegex, tracks[i].description) || Search(SixOneRegex, tracks[i].description))
  }

  /** Some commentary is neither AC3 nor DTS. */
  predicate UnknownFormat(tracks: seq<Track>)
  {
    exists i :: 0 <= i < |tracks| && CommentaryExtension(tracks[i].description).None?
  }

  lemma {:induction false} SoundtracksFail(tracks: seq<Track>, first: nat)
    ensures Soundtracks(tracks, first).Err? <==> Unsupported(tracks)
  {
    if tracks != [] {
      var front := tracks[..|tracks| - 1];
      SoundtracksFail(front, first);
      if Unsupported(front) {
        var i :| 0 <= i < |front| && (Search(StrangeSetupRegex, front[i].description) || Search(SixOneRegex, front[i].description));
        assert tracks[i] == front[i];
      }
    }
  }

  lemma {:induction false} CommentariesFail(tracks: seq<Track>, first: nat)
    ensures Commentaries(tracks, first).Err? <==> UnknownFormat(tracks)
  {
    if tracks != [] {
      var front := tracks[..|tracks| - 1];
      CommentariesFail(front, first);
      if UnknownFormat(front) {
        var i :| 0 <= i < |front| && CommentaryExtension(front[i].description).None?;
        assert tracks[i] == front[i];
      }
    }
  }

  /** The plan fails exactly when a soundtrack mentions "strange setup" or
      "6.1 channels" or a commentary is neither AC3 nor DTS; the
      soundtrack errors come first. */
  lemma PlanFails(chapters: seq<Track>, videos: seq<Track>, soundtracks: seq<Track>,
                  commentaries: seq<Track>, subtitles: seq<Track>)
    ensures ExtractionPlan(chapters, videos, soundtracks, commentaries, subtitles).Err? <==>
      Unsupported(soundtracks) || UnknownFormat(commentaries)
    ensures Unsupported(soundtracks) ==>
      ExtractionPlan(chapters, videos, soundtracks, commentaries, subtitles).error.StrangeSetup? ||
      ExtractionPlan(chapters, videos, soundtracks, commentaries, subtitles).error.SixOneChannels?
    ensures !Unsupported(soundtracks) && UnknownFormat(commentaries) ==>
      ExtractionPlan(chapters, videos, soundtracks, commentaries, subtitles).error.UnknownCommentary?
  {
    SoundtracksFail(soundtracks, 1 + |chapters| + |videos|);
    SoundtracksErrors(soundtracks, 1 + |chapters| + |videos|);
    if Soundtracks(soundtracks, 1 + |chapters| + |videos|).Ok? {
      var s := Soundtracks(soundtracks, 1 + |chapters| + |videos|).value;
      CommentariesFail(commentaries, s.next);
      CommentariesErrors(commentaries, s.next);
    }
  }

  lemma {:induction false} SoundtracksErrors(tracks: seq<Track>, first: nat)
    ensures Soundtracks(tracks, first).Err? ==>
      Soundtracks(tracks, first).error.StrangeSetup? || Soundtracks(tracks, first).error.SixOneChannels?
  {
    if tracks != [] {
      SoundtracksErrors(tracks[..|tracks| - 1], first);
    }
  }

  lemma {:induction false} CommentariesErrors(tracks: seq<Track>, first: nat)
    ensures Commentaries(tracks, first).Err? ==> Commentaries(tracks, first).error.UnknownCommentary?
  {
    if tracks != [] {
      CommentariesErrors(tracks[..|tracks| - 1], first);
    }
  }

  /** The two soundtracks of a lossless `DTS Master Audio, ` track: the FLAC
      copy goes to a `.flac` file and the original to a `.dts` file. */
  lemma LosslessExtensions(t: Track)
    requires StartsWith(t.description, "DTS Master Audio, ")
    ensures SoundtrackExtension(FlacCopy(t).description) == Some(".flac")
    ensures SoundtrackExtension(t.description) == Some(".dts")
  {
    var d := t.description;
    var f := FlacCopy(t).description;
    assert f == FlacTag + (" " + d);
    assert f[..6] == FlacTag;
    LiteralMatch("(FLAC)", f);
    assert d[..3] == d[..18][..3] == "DTS";
    assert d[..6][0] == d[..3][0] == 'D';
    LiteralMatch("(FLAC)", d);
    LiteralMatch("DTS", d);
  }

  /** One commentary: an error unless its description starts with `AC3` or
      `DTS`; otherwise its id, its file (`.ac3` for AC3, `.dts` for DTS) and
      `-keepDialnorm` exactly when the description mentions dialnorm. */
  lemma CommentaryOutcome(t: Track, number: nat)
    ensures CommentaryExtract(t, number).Err? <==>
      !StartsWith(t.description, "AC3") && !StartsWith(t.description, "DTS")
    ensures CommentaryExtract(t, number).Err? ==>
      CommentaryExtract(t, number).error == UnknownCommentary(t.description)
    ensures CommentaryExtract(t, number).Ok? ==>
      Args(CommentaryExtract(t, number).value) ==
        [t.id, Pad2(number) + "commentary" + (if StartsWith(t.description, "AC3") then ".ac3" else ".dts")] +
        (if Search(DialnormRegex, t.description) then ["-keepDialnorm"] else [])
  {
    LiteralMatch("AC3", t.description);
    LiteralMatch("DTS", t.description);
  }

  /** One soundtrack: an error when its description mentions a strange setup
      or 6.1 channels (the strange setup reported first); otherwise its id,
      followed by a file whose extension comes from the description's start,
      or by nothing for any other (raw/PCM) track. */
  lemma SoundtrackOutcome(t: Track, number: nat)
    ensures SoundtrackExtract(t, number).Err? <==>
      Search(StrangeSetupRegex, t.description) || Search(SixOneRegex, t.description)
    ensures Search(StrangeSetupRegex, t.description) ==>
      SoundtrackExtract(t, number) == Err(StrangeSetup(t.id))
    ensures !Search(StrangeSetupRegex, t.description) && Search(SixOneRegex, t.description) ==>
      SoundtrackExtract(t, number) == Err(SixOneChannels(t.id))
    ensures SoundtrackExtract(t, number).Ok? ==>
      Args(SoundtrackExtract(t, number).value) ==
        if StartsWith(t.description, "(FLAC)") then [t.id, Pad2(number) + "audio.flac"]
        else if StartsWith(t.description, "DTS") then [t.id, Pad2(number) + "audio.dts"]
        else if StartsWith(t.description, "TrueHD") then [t.id, Pad2(number) + "audio.thd"]
        else [t.id]
  {
    if SoundtrackExtract(t, number).Ok? {
      SoundtrackFiles(t, number);
    }
  }

  lemma SoundtrackFiles(t: Track, number: nat)
    requires SoundtrackExtract(t, number).Ok?
    ensures Args(SoundtrackExtract(t, number).value) ==
        if StartsWith(t.description, "(FLAC)") then [t.id, Pad2(number) + "audio.flac"]
        else if StartsWith(t.description, "DTS") then [t.id, Pad2(number) + "audio.dts"]
        else if StartsWith(t.description, "TrueHD") then [t.id, Pad2(number) + "audio.thd"]
        else [t.id]
  {
    LiteralMatch("(FLAC)", t.description);
    LiteralMatch("DTS", t.description);
    LiteralMatch("TrueHD", t.description);
    AudioNames(Pad2(number));
  }

  lemma AudioNames(p: string)
    ensures p + AudioRole + ".flac" == p + "audio.flac"
    ensures p + AudioRole + ".dts" == p + "audio.dts"
    ensures p + AudioRole + ".thd" == p + "audio.thd"
  {
    assert AudioRole + ".flac" == "audio.flac";
    assert AudioRole + ".dts" == "audio.dts";
    assert AudioRole + ".thd" == "audio.thd";
  }
}
