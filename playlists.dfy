/** Reading the playlists listed by the disc scan and choosing the one to
    extract: the first half of `demux`. */
module Playlists {
  import opened Text
  import opened Outcomes

  /** One `(int(id), duration)` pair of the scan. */
  datatype Playlist = Playlist(id: nat, duration: string)

  /** `[0-9]:[0-9][0-9]:[0-9][0-9]` */
  predicate IsDuration(d: string)
  {
    |d| == 7 && IsDigit(d[0]) && d[1] == ':' && IsDigit(d[2]) && IsDigit(d[3]) &&
    d[4] == ':' && IsDigit(d[5]) && IsDigit(d[6])
  }

  /** What a trailing `$` compares against: the line without one final newline. */
  function DollarBody(line: string): string
  {
    if |line| > 0 && line[|line| - 1] == '\n' then line[..|line| - 1] else line
  }

  /** `re.match(r'(?P<id>[0-9]+)\) .*, (?P<duration>[0-9]:[0-9][0-9]:[0-9][0-9])$', line)`:
      digits, `) `, a title without newlines, `, ` and a duration. */
  function ParsePlaylistLine(line: string): (r: Option<Playlist>)
    ensures r.Some? ==> IsDuration(r.value.duration)
  {
    ParseBody(DollarBody(line))
  }

  /** The match against the line once `$` has dropped its final newline. */
  function ParseBody(body: string): (r: Option<Playlist>)
    ensures r.Some? ==> IsDuration(r.value.duration)
  {
    var k := DigitRun(body);
    if 0 < k && k + 11 <= |body| && body[k] == ')' && body[k + 1] == ' ' &&
       NoNewline(body[k + 2..|body| - 9]) && body[|body| - 9..|body| - 7] == ", " &&
       IsDuration(body[|body| - 7..])
    then Some(Playlist(DigitsValue(body[..k]), body[|body| - 7..]))
    else None
  }

  /** The shape of a playlist line as the scanner prints it. */
  function PlaylistLine(id: nat, title: string, duration: string): string
  {
    NatToString(id) + ") " + title + ", " + duration
  }

  lemma ParsePlaylistLineAt(body: string, tail: string, k: nat)
    requires tail == [] || tail == "\n"
    requires |body| > 0 && IsDigit(body[|body| - 1])
    requires DigitRun(body) == k
    requires 0 < k && k + 11 <= |body| && body[k] == ')' && body[k + 1] == ' '
    requires NoNewline(body[k + 2..|body| - 9]) && body[|body| - 9..|body| - 7] == ", "
    requires IsDuration(body[|body| - 7..])
    ensures ParsePlaylistLine(body + tail) == Some(Playlist(DigitsValue(body[..k]), body[|body| - 7..]))
  {
    DollarBodyOf(body, tail);
  }

  /** A line that ends in a digit, with or without a newline after it. */
  lemma DollarBodyOf(body: string, tail: string)
    requires tail == [] || tail == "\n"
    requires |body| > 0 && IsDigit(body[|body| - 1])
    ensures DollarBody(body + tail) == body
  {
    if tail == [] {
      assert body + tail == body;
    } else {
      assert (body + tail)[..|body|] == body;
    }
  }

  /** Reading back a printed playlist line gives its number and duration. */
  lemma ParsePlaylistLineRoundTrip(id: nat, title: string, duration: string, tail: string)
    requires NoNewline(title) && IsDuration(duration)
    requires tail == [] || tail == "\n"
    ensures ParsePlaylistLine(PlaylistLine(id, title, duration) + tail) == Some(Playlist(id, duration))
  {
    var digits := NatToString(id);
    var body := PlaylistLine(id, title, duration);
    var after := ") " + title + ", " + duration;
    assert body == digits + after;
    DigitRunOf(digits, after);
    var k := |digits|;
    assert body[..k] == digits;
    NatToStringRoundTrip(id);
    assert body[k + 2..|body| - 9] == title;
    assert body[|body| - 9..|body| - 7] == ", ";
    assert body[|body| - 7..] == duration;
    ParsePlaylistLineAt(body, tail, k);
  }

  /** line lists playlist p: its digits, `) `, title, `, `, duration and at
      most one newline. */
  predicate ListsPlaylist(line: string, digits: string, title: string, p: Playlist)
  {
    |digits| > 0 && AllDigits(digits) && DigitsValue(digits) == p.id &&
    NoNewline(title) && IsDuration(p.duration) &&
    (line == digits + ") " + title + ", " + p.duration ||
     line == digits + ") " + title + ", " + p.duration + "\n")
  }

  /** Every parsed playlist comes from a line of the expected shape. */
  lemma ParsePlaylistLineInverse(line: string)
    requires ParsePlaylistLine(line).Some?
    ensures exists digits, title :: ListsPlaylist(line, digits, title, ParsePlaylistLine(line).value)
  {
    var p := ParsePlaylistLine(line).value;
    var body := DollarBody(line);
    var k := DigitRun(body);
    var digits, title := body[..k], body[k + 2..|body| - 9];
    assert body == digits + ") " + title + ", " + p.duration;
    assert ListsPlaylist(line, digits, title, p);
  }

  /** The playlists of the cleaned scan lines, in line order. */
  function ParsedPlaylists(lines: seq<string>): (r: seq<Playlist>)
    ensures |r| <= |lines|
    ensures forall p :: p in r ==> IsDuration(p.duration)
  {
    if lines == [] then []
    else ParsedPlaylists(lines[..|lines| - 1]) + Listed(lines[|lines| - 1])
  }

  /** The playlist of one line, if it lists one. */
  function Listed(line: string): (r: seq<Playlist>)
    ensures forall p :: p in r <==> ParsePlaylistLine(line) == Some(p)
  {
    match ParsePlaylistLine(line)
    case Some(p) => [p]
    case None => []
  }

  /** The loop that appends every parsed line to `playlists`. */
  method ParsePlaylists(lines: seq<string>) returns (playlists: seq<Playlist>)
    ensures playlists == ParsedPlaylists(lines)
  {
    playlists := [];
    for i := 0 to |lines|
      invariant playlists == ParsedPlaylists(lines[..i])
    {
      assert lines[..i + 1][..i] == lines[..i];
      var m := ParsePlaylistLine(lines[i]);
      if m.Some? {
        playlists := playlists + [m.value];
      }
    }
    assert lines[..|lines|] == lines;
  }

  /** Parsing keeps line order: it distributes over concatenation. */
  lemma {:induction false} ParsedPlaylistsAppend(a: seq<string>, b: seq<string>)
    ensures ParsedPlaylists(a + b) == ParsedPlaylists(a) + ParsedPlaylists(b)
    decreases |b|
  {
    if b == [] {
      assert a + b == a;
    } else {
      var b', last := b[..|b| - 1], b[|b| - 1];
      SplitLast(a, b);
      ParsedPlaylistsSnoc(a + b', last);
      ParsedPlaylistsSnoc(b', last);
      ParsedPlaylistsAppend(a, b');
      Reassociate(ParsedPlaylists(a), ParsedPlaylists(b'), Listed(last), ParsedPlaylists(a + b'),
                  ParsedPlaylists(a + b), ParsedPlaylists(b));
    }
  }

  lemma Reassociate(pa: seq<Playlist>, pb: seq<Playlist>, l: seq<Playlist>,
                    front: seq<Playlist>, whole: seq<Playlist>, back: seq<Playlist>)
    requires front == pa + pb && whole == front + l && back == pb + l
    ensures whole == pa + back
  {
  }

  lemma SplitLast(a: seq<string>, b: seq<string>)
    requires b != []
    ensures b == b[..|b| - 1] + [b[|b| - 1]]
    ensures a + b == (a + b[..|b| - 1]) + [b[|b| - 1]]
  {
    assert b == b[..|b| - 1] + [b[|b| - 1]];
  }

  lemma ParsedPlaylistsSnoc(lines: seq<string>, line: string)
    ensures ParsedPlaylists(lines + [line]) == ParsedPlaylists(lines) + Listed(line)
  {
    assert (lines + [line])[..|lines|] == lines;
  }

  // ---------------------------------------------------------------------
  // Choosing the playlist
  // ---------------------------------------------------------------------

  /** No playlist is longer than playlist i (durations compare as strings). */
  predicate IsLongest(ps: seq<Playlist>, i: int)
  {
    0 <= i < |ps| && forall j :: 0 <= j < |ps| ==> !LexLess(ps[i].duration, ps[j].duration)
  }

  /** The first longest playlist: the one a stable sort by descending
      duration puts in front. */
  function FirstLongest(ps: seq<Playlist>): (b: nat)
    requires |ps| > 0
    ensures b < |ps|
  {
    if |ps| == 1 then 0
    else
      var b := FirstLongest(ps[..|ps| - 1]);
      if LexLess(ps[b].duration, ps[|ps| - 1].duration) then |ps| - 1 else b
  }

  /** FirstLongest is longest, and every playlist before it is strictly shorter. */
  lemma {:induction false} FirstLongestIsLongest(ps: seq<Playlist>)
    requires |ps| > 0
    ensures IsLongest(ps, FirstLongest(ps))
    ensures forall j :: 0 <= j < FirstLongest(ps) ==> LexLess(ps[j].duration, ps[FirstLongest(ps)].duration)
  {
    if |ps| == 1 {
      LexLessIrreflexive(ps[0].duration);
    } else {
      var front := ps[..|ps| - 1];
      var last := |ps| - 1;
      FirstLongestIsLongest(front);
      var b := FirstLongest(front);
      assert ps[b] == front[b];
      if LexLess(ps[b].duration, ps[last].duration) {
        forall j | 0 <= j < |ps|
          ensures !LexLess(ps[last].duration, ps[j].duration)
        {
          LexLessIrreflexive(ps[last].duration);
          if j < last {
            assert ps[j] == front[j];
            if LexLess(ps[last].duration, ps[j].duration) {
              LexLessTransitive(ps[b].duration, ps[last].duration, ps[j].duration);
            }
          }
        }
        forall j | 0 <= j < last
          ensures LexLess(ps[j].duration, ps[last].duration)
        {
          assert ps[j] == front[j];
          LexLessTotal(ps[j].duration, ps[b].duration);
          if LexLess(ps[j].duration, ps[b].duration) {
            LexLessTransitive(ps[j].duration, ps[b].duration, ps[last].duration);
          }
        }
      } else {
        forall j | 0 <= j < |ps|
          ensures !LexLess(ps[b].duration, ps[j].duration)
        {
          if j < last {
            assert ps[j] == front[j];
          }
        }
        forall j | 0 <= j < b
          ensures LexLess(ps[j].duration, ps[b].duration)
        {
          assert ps[j] == front[j];
        }
      }
    }
  }

  /** Some other playlist has the duration of playlist b. */
  predicate SharesDuration(ps: seq<Playlist>, b: nat)
    requires b < |ps|
  {
    exists j :: 0 <= j < |ps| && j != b && ps[j].duration == ps[b].duration
  }

  /** One more playlist: it becomes the longest when it is strictly longer
      than the longest so far, and it ties when it is exactly as long. */
  lemma LongestStep(ps: seq<Playlist>, x: Playlist)
    requires |ps| > 0
    ensures FirstLongest(ps + [x]) ==
            if LexLess(ps[FirstLongest(ps)].duration, x.duration) then |ps| else FirstLongest(ps)
    ensures SharesDuration(ps + [x], FirstLongest(ps + [x])) <==>
            !LexLess(ps[FirstLongest(ps)].duration, x.duration) &&
            (SharesDuration(ps, FirstLongest(ps)) || x.duration == ps[FirstLongest(ps)].duration)
  {
    var q := ps + [x];
    assert q[..|q| - 1] == ps;
    if LexLess(ps[FirstLongest(ps)].duration, x.duration) {
      NewLongestAlone(ps, x);
    } else {
      OldLongestTies(ps, x);
    }
  }

  lemma NewLongestAlone(ps: seq<Playlist>, x: Playlist)
    requires |ps| > 0 && LexLess(ps[FirstLongest(ps)].duration, x.duration)
    ensures !SharesDuration(ps + [x], |ps|)
  {
    var b, q := FirstLongest(ps), ps + [x];
    FirstLongestIsLongest(ps);
    forall j | 0 <= j < |q| && j != |ps|
      ensures q[j].duration != q[|ps|].duration
    {
      assert q[j] == ps[j];
      assert !LexLess(ps[b].duration, ps[j].duration);
    }
  }

  lemma OldLongestTies(ps: seq<Playlist>, x: Playlist)
    requires |ps| > 0
    ensures SharesDuration(ps + [x], FirstLongest(ps)) <==>
            SharesDuration(ps, FirstLongest(ps)) || x.duration == ps[FirstLongest(ps)].duration
  {
    var b, q := FirstLongest(ps), ps + [x];
    assert q[b] == ps[b];
    if SharesDuration(ps, b) {
      var j :| 0 <= j < |ps| && j != b && ps[j].duration == ps[b].duration;
      assert q[j] == ps[j];
    }
    if x.duration == ps[b].duration {
      assert q[|ps|] == x;
    }
    if SharesDuration(q, b) && x.duration != ps[b].duration {
      var j :| 0 <= j < |q| && j != b && q[j].duration == q[b].duration;
      assert q[j] == ps[j];
    }
  }

  /** The playlist number `demux` goes on with. A user number counts only
      when it is not 0 (`if user_playlist:`) and is checked against the
      number of playlists, not against their ids. Otherwise the longest
      playlist is taken, unless another one is as long. */
  function Selection(ps: seq<Playlist>, user: Option<int>): (r: Result<int>)
    requires |ps| > 0
    ensures user.Some? && user.value != 0 && r.Ok? ==> r.value == user.value <= |ps|
    ensures (user.None? || user.value == 0) && r.Ok? ==> exists i :: IsLongest(ps, i) && ps[i].id == r.value
    ensures r.Err? ==> r.error == NoObviousTitle || (user.Some? && r.error == NoSuchPlaylist(user.value, |ps|))
  {
    FirstLongestIsLongest(ps);
    if user.Some? && user.value != 0 then
      if user.value > |ps| then Err(NoSuchPlaylist(user.value, |ps|)) else Ok(user.value)
    else
      var b := FirstLongest(ps);
      if SharesDuration(ps, b) then Err(NoObviousTitle) else Ok(ps[b].id)
  }

  /** A nonzero playlist number from the user is taken as it is, unless it
      is larger than the number of playlists found. */
  lemma UserSelection(ps: seq<Playlist>, n: int)
    requires |ps| > 0 && n != 0
    ensures Selection(ps, Some(n)).Ok? <==> n <= |ps|
    ensures Selection(ps, Some(n)).Ok? ==> Selection(ps, Some(n)).value == n
    ensures Selection(ps, Some(n)).Err? ==> Selection(ps, Some(n)).error == NoSuchPlaylist(n, |ps|)
  {
  }

  /** Without a user choice the selection is the id of a longest playlist,
      and it fails exactly when two playlists are longest. */
  lemma LongestSelection(ps: seq<Playlist>, user: Option<int>)
    requires |ps| > 0
    requires user == None || user == Some(0)
    ensures Selection(ps, user).Ok? <==> !exists i, j :: i != j && IsLongest(ps, i) && IsLongest(ps, j)
    ensures Selection(ps, user).Ok? ==> exists i :: IsLongest(ps, i) && ps[i].id == Selection(ps, user).value
    ensures Selection(ps, user).Err? ==> Selection(ps, user).error == NoObviousTitle
  {
    var b := FirstLongest(ps);
    FirstLongestIsLongest(ps);
    if SharesDuration(ps, b) {
      var j :| 0 <= j < |ps| && j != b && ps[j].duration == ps[b].duration;
      assert IsLongest(ps, j);
    } else {
      forall i, j | i != j && IsLongest(ps, i) && IsLongest(ps, j)
        ensures false
      {
        LexLessTotal(ps[i].duration, ps[b].duration);
        LexLessTotal(ps[j].duration, ps[b].duration);
      }
    }
  }

  /** Lines 104-125 of `demux`. The sort at line 118 is observed only
      through its first two entries, so one pass finds what they are: the
      first longest playlist and whether another has its duration. */
  method SelectPlaylist(ps: seq<Playlist>, user: Option<int>) returns (r: Result<int>)
    requires |ps| > 0
    ensures r == Selection(ps, user)
  {
    if user.Some? && user.value != 0 {
      if user.value > |ps| {
        return Err(NoSuchPlaylist(user.value, |ps|));
      }
      return Ok(user.value);
    }
    var best, tied := FindLongest(ps);
    LongestOutcome(ps, user, best, tied);
    if tied {
      return Err(NoObviousTitle);
    }
    return Ok(ps[best].id);
  }

  /** The pass that stands for the sort at line 118: the first longest
      playlist, and whether another playlist is exactly as long. */
  method FindLongest(ps: seq<Playlist>) returns (best: nat, tied: bool)
    requires |ps| > 0
    ensures best == FirstLongest(ps)
    ensures tied <==> SharesDuration(ps, best)
  {
    best := 0;
    tied := false;
    assert ps[..1] == [ps[0]];
    for i := 1 to |ps|
      invariant best < i
      invariant best == FirstLongest(ps[..i])
      invariant tied <==> SharesDuration(ps[..i], best)
    {
      assert ps[..i + 1] == ps[..i] + [ps[i]];
      best, tied := LongestUpdate(ps[..i], ps[i], best, tied);
    }
    assert ps[..|ps|] == ps;
  }

  /** One turn of that pass: x is the next playlist. */
  method LongestUpdate(ps: seq<Playlist>, x: Playlist, best: nat, tied: bool) returns (b: nat, t: bool)
    requires |ps| > 0 && best == FirstLongest(ps) && (tied <==> SharesDuration(ps, best))
    ensures b == FirstLongest(ps + [x]) && (t <==> SharesDuration(ps + [x], b))
  {
    LongestStep(ps, x);
    if LexLess(ps[best].duration, x.duration) {
      b, t := |ps|, false;
    } else if x.duration == ps[best].duration {
      b, t := best, true;
    } else {
      b, t := best, tied;
    }
  }

  lemma LongestOutcome(ps: seq<Playlist>, user: Option<int>, best: nat, tied: bool)
    requires user.None? || user.value == 0
    requires |ps| > 0 && best == FirstLongest(ps) && (tied <==> SharesDuration(ps, best))
    ensures Selection(ps, user) == if tied then Err(NoObviousTitle) else Ok(ps[best].id)
  {
  }
}
