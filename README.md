# eac3bot in Dafny

`eac3bot.py` (riptools) drives the Blu-ray demuxer eac3to. It first asks
eac3to to list the playlists of a disc. It then picks one playlist: the one
the user named, or else the single longest one. Next it asks eac3to for that
playlist's tracks and keeps one chapter track, one 1080p24 video track and
one English `DTS Master Audio` soundtrack. It also keeps the English stereo
AC3/DTS commentaries and the English PGS subtitles. Last, it builds the
eac3to command line that extracts each of these tracks to a file. The file
names carry one running number, for example `01chapters.txt`,
`02video.mkv`, `03audio.flac`, `04audio.dts` and `05commentary.ac3`.

The model covers everything between the scanner's text and that command
line. It is split into these modules:

- `Outcomes`: `Option` and `Result`, and one `Error` constructor for each
  place where `demux` logs an error and returns 1.
- `Text`: the string handling the script relies on:
  - the `[0-9]+` runs and the `.*` runs of its regular expressions;
  - `int()` and the `%d` / `%02d` formats;
  - `split('\r\n')`;
  - `strip('\x08').rstrip(' ')`;
  - Python's string order, used to sort the durations.

  Regular expressions are modelled as literal sequences of atoms. An
  unescaped `.` is Python's wildcard for any character except a newline.
  `re.match` anchors at the start of the string; `re.search` may match
  anywhere.
- `Tracks`: `find_track_matches`, `filter_by` and the five role matchers.
  `filter_by` builds its list in a loop and `lossy_audio_tracks` extends
  its list with `+=`, so both are methods, each proved against a
  specification function.
- `Playlists`: parsing the playlist lines and choosing a playlist. The
  parse loop is a method.
- `Plan`: the sanity checks, the FLAC expansion, and the numbering of files
  across the five role loops. The numbering is given as specification
  functions and the facts proved about them.
- `Demux`: the `demux` function as imperative code. It has the five
  argument loops, with the `prefix` counter and the early exits. Each step
  is proved equal to the specification in `Plan`. The two eac3to scans are
  inputs: a scan that failed is `None`.

## Model

| member | source | states |
|---|---|---|
| Text.NatToString | eac3bot.py:92 | `%d` of a natural is a non-empty digit string with no leading zero (except `0` itself) |
| Text.IntToString | eac3bot.py:130 | `%d` of an integer starts with `-` exactly for negatives, and its digits read back as the magnitude |
| Text.DigitRun | eac3bot.py:52 | `[0-9]+` takes the longest run of leading digits: all of them are digits and the next character is not |
| Text.DigitRunOf | eac3bot.py:90 | a run of digits followed by a non-digit (or by nothing) is read as exactly that run |
| Text.NatToStringRoundTrip | eac3bot.py:92 | `int()` of the printed form of n gives back n, which ties `int(m.group('id'))` to the `%d)` used at line 130 |
| Text.Pad2 | eac3bot.py:202 | `%02d` prints at least two digits, reads back as the number, and has a leading zero only when padding |
| Text.LineLength | eac3bot.py:52 | `.*` runs up to the first newline or the end of the text |
| Text.LineLengthOf | eac3bot.py:52 | a newline-free text followed by a newline (or by nothing) is matched by `.*` exactly |
| Text.Search | eac3bot.py:47 | a `re.match` success is a `re.search` success, and a search needs a text at least as long as the pattern |
| Text.LiteralMatch | eac3bot.py:222-227 | `re.match` (`MatchesAt`) of a dot-free literal succeeds exactly when the text starts with that literal, in both directions |
| Text.SplitLines | eac3bot.py:87 | `split('\r\n')` always gives at least one piece |
| Text.SplitLinesJoin | eac3bot.py:87 | joining the pieces of `split('\r\n')` with `\r\n` gives back the scanner output |
| Text.SplitLinesHead | eac3bot.py:87 | the first piece is a prefix of the output |
| Text.SplitLinesPieces | eac3bot.py:87 | no piece contains `\r\n` |
| Text.SplitLinesBefore | eac3bot.py:87 | a piece without `\r\n` followed by `\r\n` splits off as the first piece |
| Text.SplitLinesSingle | eac3bot.py:87 | a text without `\r\n` is a single piece |
| Text.JoinLinesSplit | eac3bot.py:87 | splitting lines joined by `\r\n` gives the lines back, so split and join are inverse |
| Text.LeadingCount | eac3bot.py:86 | counts exactly the leading copies of a character |
| Text.TrailingCount | eac3bot.py:86 | counts exactly the trailing copies of a character |
| Text.Strip | eac3bot.py:86 | `strip(c)` is one contiguous slice of the text, everything around it is c, and it neither starts nor ends with c |
| Text.RStrip | eac3bot.py:86 | `rstrip(c)` is a prefix of the text, everything after it is c, and it does not end with c |
| Text.CleanLine | eac3bot.py:86 | a cleaned non-empty line neither starts with a backspace nor ends with a space |
| Text.CleanLineInfix | eac3bot.py:86 | the cleaned line is the raw line minus some leading backspaces and some trailing backspaces and spaces |
| Text.CleanLineSlice | eac3bot.py:86 | the cleaned line is the slice of the raw line between the stripped backspaces and the trailing backspaces and spaces |
| Text.CleanLineTail | eac3bot.py:86 | everything cut from the end of the line is a backspace or a space |
| Text.CleanLineKeepsClean | eac3bot.py:86 | cleaning leaves a line that has nothing to trim unchanged (cleaning is idempotent on such lines) |
| Text.LexLess | eac3bot.py:118 | Python's string `<` on durations: never between equal strings, and a proper prefix sorts first |
| Text.LexLessIrreflexive | eac3bot.py:118 | the order the sort uses on durations is irreflexive |
| Text.LexLessTransitive | eac3bot.py:118 | that order is transitive |
| Text.LexLessTotal | eac3bot.py:118 | that order is total, so the longest duration is well defined |
| Tracks.MatchTrack | eac3bot.py:36-41 | a match has an id of digits and a colon, a description that fits the role pattern, and is the line's text after `id ` |
| Tracks.MatchTrackRoundTrip | eac3bot.py:36-41 | the line `id description` (plus allowed tail) of a fitting track matches back to that very track |
| Tracks.CapturedFits | eac3bot.py:36-41 | a line `<digits>: <rest>` whose rest the role pattern matches yields a track id, a fitting description, and the line is that track's line followed by an allowed tail |
| Tracks.IdRoundTrip | eac3bot.py:52 | on a track's line, `[0-9]+` reads back exactly the id's digits, followed by `: ` and the description |
| Tracks.CapturedRoundTrip | eac3bot.py:52 | the description group captures a fitting description back when an allowed tail follows it |
| Tracks.Found | eac3bot.py:36-42 | one line gives at most one record, with a track id and a fitting description |
| Tracks.FindTrackMatches | eac3bot.py:35-42 | every kept record has a track id and a fitting description; there are no more records than lines |
| Tracks.FindTrackMatchesAppend | eac3bot.py:42 | matching distributes over concatenated line lists, so input order is kept |
| Tracks.FindTrackMatchesMembership | eac3bot.py:42 | a track is found exactly when some line matches to it |
| Tracks.Keep | eac3bot.py:47-48 | keeps exactly the tracks whose description contains the expression |
| Tracks.KeepAppend | eac3bot.py:47-48 | the per-expression filter keeps the original order |
| Tracks.KeepCount | eac3bot.py:47-48 | a track occurs in the filtered list as often as in the input if it hits, otherwise not at all |
| Tracks.FilterBy | eac3bot.py:44-49 | the loop returns the concatenation, expression by expression, of the tracks each expression keeps |
| Tracks.Selected | eac3bot.py:44-49 | `filter_by` only ever returns input tracks |
| Tracks.SelectedCount | eac3bot.py:44-49 | a track occurs once per expression it hits (times its occurrences), so a track hitting two expressions appears twice |
| Tracks.SelectedSnocCount | eac3bot.py:46-48 | one more expression adds, for each track, its occurrences in that expression's filter |
| Tracks.SelectedSnocMember | eac3bot.py:46-48 | after one more expression a track is selected exactly when it was before or that expression keeps it |
| Tracks.SelectedMembership | eac3bot.py:44-49 | a track is selected exactly when it is an input track and some expression hits its description |
| Tracks.SelectedHits | eac3bot.py:44-49 | every selected track is an input track hit by some expression |
| Tracks.SelectedSingle | eac3bot.py:44-49 | with one expression, `filter_by` is that expression's filter |
| Tracks.PatternTracks | eac3bot.py:35-53 | the tracks a dot-free role pattern finds carry a track id and their descriptions start with the role literal |
| Tracks.RoleSelection | eac3bot.py:58-72 | a role's tracks kept by language carry a track id, start with the role literal and contain one of the languages |
| Tracks.ChapterTracks | eac3bot.py:51-53 | every chapter record has a track id and a description starting `Chapters, ` |
| Tracks.VideoTracks | eac3bot.py:55-56 | every video record's description is the whole rest of the line and equals `h264/AVC, 1080p24 /1.001 (16:9)` up to the wildcard dots |
| Tracks.LosslessSelection | eac3bot.py:58-61 | every lossless record starts `DTS Master Audio, ` and contains one of the language expressions |
| Tracks.LosslessAudioTracks | eac3bot.py:58-61 | the method computes the lossless selection |
| Tracks.LossyCandidates | eac3bot.py:64-66 | every candidate starts with `AC3, `, `AC3 Surround, ` or `DTS, ` |
| Tracks.LossyConcat | eac3bot.py:64-66 | the three concatenated match lists hold only track ids with AC3, AC3 Surround or DTS descriptions |
| Tracks.LossySelection | eac3bot.py:63-67 | every lossy record is a candidate containing one language expression and one channel expression |
| Tracks.LossyAudioTracks | eac3bot.py:63-67 | the method, which extends its list in place, computes the lossy selection |
| Tracks.LossyOrder | eac3bot.py:64-67 | with one language and one channel, the result is all AC3 matches, then all AC3 Surround, then all DTS, each filtered in order |
| Tracks.SubtitleSelection | eac3bot.py:69-72 | every subtitle record starts `Subtitle (PGS), ` and contains one of the language expressions |
| Tracks.SubtitleTracks | eac3bot.py:69-72 | the method computes the subtitle selection |
| Playlists.ParsePlaylistLine | eac3bot.py:90-92 | a parsed playlist always has a `d:dd:dd` duration |
| Playlists.ParsePlaylistLineAt | eac3bot.py:90-92 | a line `<digits>) ..., d:dd:dd` (optionally ending in one newline) parses to the digits' value and the duration |
| Playlists.ParsePlaylistLineRoundTrip | eac3bot.py:90-92 | printing `id) title, duration` and parsing gives back id and duration |
| Playlists.ParsePlaylistLineInverse | eac3bot.py:90-92 | every parsed line is of the form `<digits>) <title>, <duration>` for the parsed id and duration |
| Playlists.ParsedPlaylists | eac3bot.py:88-92 | at most one playlist per line, each with a well-formed duration |
| Playlists.Listed | eac3bot.py:91-92 | a line contributes exactly the playlist it parses to, or nothing |
| Playlists.ParsePlaylists | eac3bot.py:88-92 | the append loop computes the parsed playlists in line order |
| Playlists.ParsedPlaylistsAppend | eac3bot.py:88-92 | parsing distributes over concatenated lines, so line order is kept |
| Playlists.FirstLongest | eac3bot.py:118 | the chosen position is a valid index |
| Playlists.FirstLongestIsLongest | eac3bot.py:118-123 | the chosen playlist has a maximal duration and is the first such |
| Playlists.LongestStep | eac3bot.py:118-123 | one more playlist becomes the first longest exactly when it is strictly longer than the first longest so far; there is then a tie exactly when it is not longer and either a tie existed or it is exactly as long |
| Playlists.Selection | eac3bot.py:104-125 | a nonzero user choice is returned only when it is at most the count; otherwise the result is the id of a longest playlist; the only errors are `NoSuchPlaylist` for that choice and `NoObviousTitle` |
| Playlists.FindLongest | eac3bot.py:118-119 | the one-pass loop finds the first longest playlist and whether another playlist is exactly as long |
| Playlists.LongestUpdate | eac3bot.py:118-119 | one turn of that loop keeps both facts for the playlists seen so far |
| Playlists.UserSelection | eac3bot.py:104-113 | a nonzero user choice is an error exactly when it exceeds the playlist count, otherwise it is returned unchanged |
| Playlists.LongestSelection | eac3bot.py:114-125 | with no choice (or 0), selection fails with "no obvious title" exactly when two playlists share the maximal duration, otherwise it returns a longest playlist's id |
| Playlists.SelectPlaylist | eac3bot.py:104-125 | the method computes the selection |
| Plan.SanityCheck | eac3bot.py:149-166 | succeeds iff exactly one chapter, video and lossless track; each error holds exactly when it is the first failing check, in source order |
| Plan.FlacCopy | eac3bot.py:170-173 | the copy keeps the track id and its description is `(FLAC) ` followed by the original description, which reads back from it; `LosslessExtensions` shows it is written as `.flac` |
| Plan.Expanded | eac3bot.py:169-174 | twice as many soundtracks; position 2i is the `(FLAC) `-tagged copy of lossless track i and 2i+1 the track itself |
| Plan.ExpandLossless | eac3bot.py:169-174 | the append loop computes the expansion |
| Plan.FlattenAppend | eac3bot.py:258-262 | the arguments of concatenated plans are the concatenated arguments |
| Plan.SoundtrackExtract | eac3bot.py:212-232 | a soundtrack fails exactly when it mentions a strange setup or 6.1 channels, with that error; otherwise it keeps its id, never `-keepDialnorm`, and gets file `number` exactly when its description gives an extension |
| Plan.CommentaryExtract | eac3bot.py:235-249 | a commentary fails exactly when it is neither AC3 nor DTS, with its description; otherwise it keeps its id, gets file `number` with the commentary role, and `-keepDialnorm` exactly when dialnorm is mentioned |
| Plan.SoundtrackFiles | eac3bot.py:220-231 | a soundtrack that goes through adds its id and the `.flac`/`.dts`/`.thd` file its description's start selects, or only its id |
| Plan.SoundtrackExtension | eac3bot.py:222-231 | `.flac` for a description starting `(FLAC)`, else `.dts` for `DTS`, else `.thd` for `TrueHD`, else no file (raw/PCM), stated on prefixes rather than on the regular expressions |
| Plan.CommentaryExtension | eac3bot.py:237-243 | `.ac3` for a description starting `AC3`, else `.dts` for `DTS`, else none (the unknown-commentary error), stated on prefixes |
| Plan.SoundtrackOutcome | eac3bot.py:213-232 | a soundtrack fails iff it mentions a strange setup or 6.1 channels (strange setup first); otherwise it adds its id and a `.flac`/`.dts`/`.thd` file chosen by its prefix, or only its id |
| Plan.CommentaryOutcome | eac3bot.py:236-249 | a commentary fails iff it starts with neither `AC3` nor `DTS`; otherwise it adds id, file and `-keepDialnorm` exactly when dialnorm is mentioned |
| Plan.LosslessExtensions | eac3bot.py:222-226 | the FLAC copy of a `DTS Master Audio` track goes to `.flac` and the original to `.dts` |
| Plan.NumbersAppend | eac3bot.py:198-255 | the file numbers of concatenated plans concatenate |
| Plan.PlanIdsAppend | eac3bot.py:198-255 | the ids of concatenated plans concatenate |
| Plan.ConsecutiveAppend | eac3bot.py:198-255 | a gap-free run from lo to mid followed by one from mid to hi is gap-free from lo to hi |
| Plan.NumberedShape | eac3bot.py:200-209 | a numbered loop uses the numbers first, first+1, ... without gaps, one per track, keeping the ids |
| Plan.Numbered | eac3bot.py:200-209 | a numbered role gives one extract per track |
| Plan.Soundtracks | eac3bot.py:211-232 | a soundtrack loop that goes through gives one extract per track and advances the counter by at most one per track |
| Plan.Commentaries | eac3bot.py:234-249 | a commentary loop that goes through gives one extract per track |
| Plan.SoundtracksShape | eac3bot.py:211-232 | the soundtrack loop uses consecutive numbers, one per encoded track, and keeps every id (raw ones included) |
| Plan.CommentariesLength | eac3bot.py:234-249 | a commentary loop that goes through gives one extract per track |
| Plan.CommentariesShape | eac3bot.py:234-249 | the commentary loop uses one consecutive number per track and keeps the ids |
| Plan.ConcatNumbers | eac3bot.py:198-255 | five adjacent gap-free runs form one gap-free run |
| Plan.ConcatIds | eac3bot.py:258-262 | the ids of the five role plans concatenate in order |
| Plan.Layout | eac3bot.py:198-262 | one extract per track of the five roles, in the order lines 258-262 concatenate them; its numbering and ids are in `LayoutNumbers` and `LayoutIds` |
| Plan.LayoutNumbers | eac3bot.py:198-255 | the laid-out file numbers run 1, 2, ... without gaps |
| Plan.LayoutIds | eac3bot.py:258-262 | the laid-out ids are the role ids in role order |
| Plan.ExtractionPlan | eac3bot.py:198-255 | a successful plan has one extract for every track of the five roles |
| Plan.SoundtracksFirstError | eac3bot.py:212-219 | the soundtrack loop stops with the error of the first soundtrack that mentions a strange setup or 6.1 channels, strange setup checked first |
| Plan.CommentariesFirstError | eac3bot.py:235-244 | the commentary loop stops with the description of the first commentary that is neither AC3 nor DTS |
| Plan.PlanFirstSoundtrackError | eac3bot.py:198-219 | the whole plan fails with the error of the first refused soundtrack |
| Plan.PlanFirstCommentaryError | eac3bot.py:198-244 | with no refused soundtrack, the whole plan fails with the description of the first unknown commentary |
| Plan.PlanNumbering | eac3bot.py:198-255 | on success the file numbers are 1, 2, ..., N without gap in plan order, where N counts every track but the raw/PCM soundtracks |
| Plan.PlanIdOrder | eac3bot.py:198-262 | on success every track id is passed once, in the role order chapters, video, soundtracks, commentaries, subtitles |
| Plan.SoundtracksFail | eac3bot.py:213-219 | the soundtrack loop fails iff some soundtrack is unsupported |
| Plan.CommentariesFail | eac3bot.py:241-244 | the commentary loop fails iff some commentary has an unknown format |
| Plan.SoundtracksErrors | eac3bot.py:213-219 | soundtrack errors are only strange setup or 6.1 channels |
| Plan.CommentariesErrors | eac3bot.py:241-244 | commentary errors are only unknown commentary |
| Plan.PlanFails | eac3bot.py:211-249 | the plan fails iff a soundtrack is unsupported or a commentary unknown; soundtrack errors take precedence |
| Demux.NumberedArgsSnoc | eac3bot.py:200-203 | one more track adds its id and its numbered file name to the loop's arguments |
| Demux.NumberedArgs | eac3bot.py:199-209 | the chapter/video/subtitle loop emits exactly the numbered plan's arguments and advances the counter by the track count |
| Plan.SoundtracksStop | eac3bot.py:213-219 | once a prefix of the soundtracks fails, the whole loop fails with that error |
| Plan.CommentariesStop | eac3bot.py:241-244 | once a prefix of the commentaries fails, the whole loop fails with that error |
| Demux.SoundtrackStep | eac3bot.py:213-232 | one soundtrack iteration emits that track's arguments and advances the counter only when a file was named |
| Demux.SoundtrackAdvance | eac3bot.py:212-232 | one soundtrack iteration either ends the loop with the whole run's error, or extends the specified plan and its arguments |
| Demux.SoundtrackArgs | eac3bot.py:211-232 | the soundtrack loop returns the specified error, or the specified arguments and the next free number |
| Demux.CommentaryStep | eac3bot.py:236-249 | one commentary iteration emits that track's arguments or the unknown-commentary error |
| Demux.CommentaryArgs | eac3bot.py:234-249 | the commentary loop returns the specified error or arguments |
| Plan.Header | eac3bot.py:257 | the command starts with the eac3to path, the disc path and `N)`, where N reads back as the chosen playlist: its digits for a non-negative choice, `-` and the digits of its magnitude for a negative one, which lines 104-113 let through |
| Plan.CommandOf | eac3bot.py:257-262 | the command exists exactly when the plan does, otherwise it carries the plan's error; on success, for every track i of the plan, the position right after the header and the arguments of tracks before i holds i's id, then its numbered file, then `-keepDialnorm` when asked for |
| Plan.FlattenSlot | eac3bot.py:198-255 | in the concatenated argument lists, each track's id, file and flag follow directly the arguments of the tracks before it |
| Demux.FlattenLayout | eac3bot.py:258-262 | the command arguments are the five role argument lists in order |
| Demux.CommandAssembled | eac3bot.py:257-262 | the command is the header followed by the five lists |
| Demux.BuildCommand | eac3bot.py:198-262 | the five loops with their early exits produce exactly the specified command or error |
| Demux.FinishWithSubtitles | eac3bot.py:251-262 | the subtitle loop and the assembly produce exactly the specified command |
| Demux.FinishCommand | eac3bot.py:234-262 | the commentary and subtitle loops and the assembly produce exactly the specified command or error |
| Demux.ScanLines | eac3bot.py:86-87 | one line per `\r\n` piece; no non-empty line starts with a backspace or ends with a space |
| Demux.ScanLinesTrimmed | eac3bot.py:86-87 | each line is its piece with backspaces and trailing spaces trimmed, and the piece has no `\r\n` |
| Demux.ExpandedSoundtracks | eac3bot.py:168-232 | the one lossless track becomes files 3 (`.flac` copy) and 4 (`.dts`) |
| Demux.NumberedSingle | eac3bot.py:200-203 | one track numbered n adds its id and the file `%02d` n + role + extension |
| Demux.ExpandedArgs | eac3bot.py:221-226 | the expanded soundtrack's arguments are `id 03audio.flac id 04audio.dts` |
| Demux.SingleLayout | eac3bot.py:198-232 | with one chapter, one video and one expanded lossless track, the first eight arguments are the files 01 to 04 |
| Demux.SingleTitleArgs | eac3bot.py:168-262 | a successful plan for a sane title begins with the chapters, video, FLAC copy and original soundtrack files 01 to 04 |
| Demux.SaneCommand | eac3bot.py:149-262 | a command for tracks that passed the sanity checks begins with the header and files 01 to 04 |
| Demux.TitleCommand | eac3bot.py:140-262 | a failed sanity check is the title's error; a command needs exactly one chapter, video and lossless track and begins with the header |
| Demux.TitleCommandSuccess | eac3bot.py:140-262 | a title yields a command only with exactly one chapter, video and lossless track, and the command begins `eac3to path N)` then files 01 to 04 |
| Demux.DemuxOutcome | eac3bot.py:74-266 | no disc scan means not a Blu-ray, no parsed playlist means an unparseable scan, and a command always starts with the eac3to path and the disc path |
| Demux.Demux | eac3bot.py:74-266 | the whole run, step by step, returns exactly the specified outcome: the command or the first error |

## Left out

- The subprocess calls to eac3to (lines 80, 128 and 267) and their
  exception handlers are not modelled. Each scan is an input string, or
  `None` for a scan that raised. The run returns the command line it
  would log, because line 266 returns before the `subprocess.call` on
  line 267.
- Logging (`logger.info` / `logger.error`) and `log_tracks` (lines
  176-190) are not modelled. Only which error stops the run matters. The
  `%d` applied to a string id in the log messages at lines 215 and 218 is
  a logging defect and is not modelled.
- `main` and argparse (lines 269-290) are not modelled. The user's
  playlist is an `Option<int>`.
- Playlists.SelectPlaylist: the in-place sort at line 118 is modelled by
  its only observable effect. The model finds the first playlist of
  maximal duration and checks whether another playlist has the same
  duration. It does not model the reordering of `playlists` itself: after
  the sort, lines 119 and 123 read only `playlists[0]` and `playlists[1]`,
  and the model computes exactly what those two entries decide.
- No general regular-expression engine is modelled. Only the literal
  patterns that the script uses are modelled: a `[0-9]+` id, a literal
  with wildcard dots, `.*` up to the end of the line, and the video
  pattern's `$`. The language and channel filters are interpreted the same
  way, so they must not contain other regex syntax.
- No default-audio-track choice and no muxer (mkvmerge) options are
  modelled. `eac3bot.py` only names the files in the order mkvmerge
  should load them.
- Tracks.FindTrackMatches: the records are typed tracks, not Python
  dicts.
- Playlists.ParsedPlaylists states membership for one line (`Listed`).
  It gives no whole-list membership lemma beyond order preservation
  (`ParsedPlaylistsAppend`).
- Integer width is not an issue: Python integers are unbounded, and so is
  the model.
