/** From a transcript to the server: a tailer that restarts and replays feeds the log that the shipper sends
    (internal/ingest/ingest.go and internal/collect/forward.go together). */
module Transcripts {
  import opened EndToEnd
  import opened Events
  import opened Sightings
  import opened Slices
  import Shipping
  import Tail
  import TurnFacts

  // ---------------------------------------------------------------------------------------------
  // What a tailer's log shows
  // ---------------------------------------------------------------------------------------------

  function ReadBy(parse: Tail.Parser, t: Tail.Tailer): seq<Event> {
    if t.offset <= |t.file| then Tail.Stream(parse, t.file[..t.offset]) else []
  }

  /** Everything up to the offset and up to the checkpoint was stored, first in its order; and what was stored is
      followed by all that comes after it up to the offset. */
  ghost predicate Shows(parse: Tail.Parser, source: seq<Event>, t: Tail.Tailer) {
    && Tail.Boundary(t.file, t.offset) && Tail.Boundary(t.file, t.saved) && Tail.Stream(parse, t.file) <= source
    && Introduces(source, t.log)
    && ShowsAll(ReadBy(parse, t), t.log) && ShowsAll(Tail.Stream(parse, t.file[..t.saved]), t.log)
    && Followed(source, t.log, In(ReadBy(parse, t)))
  }

  lemma PlaceInPrefix(source: seq<Event>, first: seq<Event>, i: nat)
    requires Distinct(source) && first <= source && i < |source| && source[i] in first
    ensures i < |first|
  {
    var y :| 0 <= y < |first| && first[y] == source[i];
    OnePlace(source, i, y);
  }

  lemma ReadOnIntroduces(source: seq<Event>, log: seq<Event>, before: seq<Event>, more: seq<Event>)
    requires Distinct(source) && before + more <= source && Introduces(source, log) && ShowsAll(before, log)
    ensures Introduces(source, log + more)
  {
    forall n | 0 <= n < |more| ensures Introduced(source, log + more[..n], more[n]) {
      assert (before + more)[|before| + n] == more[n] == source[|before| + n];
      forall a | Before(source, a, more[n]) ensures a in log + more[..n] {
        var i, j := PlacesBefore(source, a, more[n]);
        OnePlace(source, j, |before| + n);
        assert source[i] == (before + more)[i];
        assert if i < |before| then a in before else a == more[..n][i - |before|];
      }
    }
    AppendIntroduces(source, log, more);
  }

  /** Reading on from a position: some whole lines, and part of the next. */
  lemma ReadOnFollowed(source: seq<Event>, log: seq<Event>, before: seq<Event>, whole: seq<Event>, part: seq<Event>)
    requires Distinct(source) && before + (whole + part) <= source
    requires Followed(source, log, In(before))
    ensures Followed(source, log + (whole + part), In(before + whole))
  {
    var more, due := whole + part, In(before + whole);
    forall x | 0 <= x < |log| ensures Succeeded(source, log[x + 1..] + more, log[x], due) {
      assert Succeeded(source, log[x + 1..], log[x], In(before));
    }
    forall n | 0 <= n < |more| ensures Succeeded(source, more[n + 1..], more[n], due) {
      assert (before + more)[|before| + n] == more[n] == source[|before| + n];
      forall b | Before(source, more[n], b) && due(b) ensures b in more[n + 1..] {
        var i, j := PlacesBefore(source, more[n], b);
        OnePlace(source, i, |before| + n);
        assert before + whole <= source;
        PlaceInPrefix(source, before + whole, j);
        assert (before + more)[j] == b == more[n + 1..][j - |before| - n - 1];
      }
    }
    AppendFollowed(source, log, more, due);
  }

  lemma ReadOnShowsAll(log: seq<Event>, before: seq<Event>, whole: seq<Event>, part: seq<Event>, saved: seq<Event>)
    requires ShowsAll(before, log) && ShowsAll(saved, log)
    ensures ShowsAll(before + whole, log + (whole + part)) && ShowsAll(saved, log + (whole + part))
  {
  }

  lemma ScanShows(parse: Tail.Parser, source: seq<Event>, t: Tail.Tailer, lines: nat, partial: nat)
    requires Distinct(source) && Shows(parse, source, t) && Tail.Can(parse, t, Tail.Scan(lines, partial))
    ensures Shows(parse, source, Tail.Do(parse, t, Tail.Scan(lines, partial)))
  {
    var taken := Tail.Ahead(t)[..lines];
    var before, whole := ReadBy(parse, t), Tail.ParseAll(parse, taken);
    var part := Tail.CutShort(parse, Tail.Ahead(t), taken, partial);
    Tail.ScanReads(parse, t, lines, partial);
    Tail.ScanMoves(parse, t, lines);
    ReadOnIntroduces(source, t.log, before, whole + part);
    ReadOnFollowed(source, t.log, before, whole, part);
    ReadOnShowsAll(t.log, before, whole, part, Tail.Stream(parse, t.file[..t.saved]));
    assert t.log + whole + part == t.log + (whole + part);
  }

  lemma GrowShows(parse: Tail.Parser, source: seq<Event>, t: Tail.Tailer, text: string)
    requires Shows(parse, source, t) && Tail.Stream(parse, t.file + text) <= source
    ensures Shows(parse, source, Tail.Do(parse, t, Tail.Grow(text)))
  {
    assert (t.file + text)[..t.offset] == t.file[..t.offset];
    assert (t.file + text)[..t.saved] == t.file[..t.saved];
  }

  /** Going back asks for less. */
  lemma BackShows(parse: Tail.Parser, source: seq<Event>, t: Tail.Tailer, to: nat)
    requires Shows(parse, source, t) && to <= t.offset && Tail.Boundary(t.file, to)
    ensures Shows(parse, source, t.(offset := to))
  {
    var less, more := Tail.Stream(parse, t.file[..to]), ReadBy(parse, t);
    assert t.file[..t.offset] == t.file[..to] + t.file[to..t.offset];
    Tail.StreamGrows(parse, t.file[..to], t.file[to..t.offset]);
    forall x | 0 <= x < |t.log| ensures Succeeded(source, t.log[x + 1..], t.log[x], In(less)) {
      assert Succeeded(source, t.log[x + 1..], t.log[x], In(more));
    }
  }

  lemma StepShows(parse: Tail.Parser, source: seq<Event>, t: Tail.Tailer, a: Tail.Action)
    requires Distinct(source) && Shows(parse, source, t) && Tail.Can(parse, t, a)
    requires a.Restart? ==> t.saved <= t.offset
    requires Tail.Stream(parse, Tail.Do(parse, t, a).file) <= source
    ensures Shows(parse, source, Tail.Do(parse, t, a))
  {
    match a {
      case Grow(text) => GrowShows(parse, source, t, text);
      case Scan(lines, partial) => ScanShows(parse, source, t, lines, partial);
      case Save =>
      case Restart => BackShows(parse, source, t, t.saved);
      case Recapture => BackShows(parse, source, t, 0);
    }
  }

  lemma EarlierStream(parse: Tail.Parser, t: Tail.Tailer, a: Tail.Action)
    requires Tail.Can(parse, t, a)
    ensures Tail.Stream(parse, t.file) <= Tail.Stream(parse, Tail.Do(parse, t, a).file)
  {
    if a.Grow? {
      Tail.StreamGrows(parse, t.file, a.text);
    }
  }

  lemma {:induction false} ShowsOverRuns(parse: Tail.Parser, source: seq<Event>, tailing: seq<Tail.Action>)
    requires Distinct(source) && Tail.Runs(parse, tailing) && Tail.GoesBack(parse, tailing)
    requires Tail.Stream(parse, Tail.After(parse, tailing).file) <= source
    ensures Shows(parse, source, Tail.After(parse, tailing))
    decreases |tailing|
  {
    if tailing != [] {
      var init, last := tailing[..|tailing| - 1], tailing[|tailing| - 1];
      EarlierStream(parse, Tail.After(parse, init), last);
      ShowsOverRuns(parse, source, init);
      StepShows(parse, source, Tail.After(parse, init), last);
    }
  }

  // ---------------------------------------------------------------------------------------------
  // Tailed and shipped
  // ---------------------------------------------------------------------------------------------

  /** What a tailer stored of a day is in the middle of no replay when nothing it stored lies ahead of it. */
  lemma CaughtUpIsTidy(parse: Tail.Parser, tailing: seq<Tail.Action>, source: seq<Event>, day: Day)
    requires Tail.Runs(parse, tailing) && Tail.GoesBack(parse, tailing) && Observed(source)
    requires Tail.Stream(parse, Tail.After(parse, tailing).file) <= source
    requires var t := Tail.After(parse, tailing); ShowsAll(t.log, ReadBy(parse, t))
    ensures Tidy(Slice(source, day), Slice(Tail.After(parse, tailing).log, day))
  {
    var t := Tail.After(parse, tailing);
    ObservedIsDistinct(source);
    ShowsOverRuns(parse, source, tailing);
    forall ev | ev in source && OnDay(day)(ev) && In(Slice(t.log, day))(TurnFacts.EraseEvent(ev))
      ensures In(ReadBy(parse, t))(ev)
    {
      var x := SliceFrom(t.log, day, TurnFacts.EraseEvent(ev));
      LogIsSource(source, t.log, x);
      SameKeySame(source, x, ev);
    }
    SliceFollowed(source, t.log, day, In(ReadBy(parse, t)), In(Slice(t.log, day)));
  }

  lemma LogIsSource(source: seq<Event>, log: seq<Event>, ev: Event)
    requires Introduces(source, log) && ev in log
    ensures ev in source
  {
    var x :| 0 <= x < |log| && log[x] == ev;
    assert Introduced(source, log[..x], log[x]);
  }

  /** The tailer has stored every complete line. */
  predicate CaughtUp(t: Tail.Tailer) {
    t.offset <= |t.file| && Tail.Lines(t.file[t.offset..]) == []
  }

  lemma AllRead(parse: Tail.Parser, t: Tail.Tailer)
    requires Tail.Boundary(t.file, t.offset) && CaughtUp(t)
    ensures ReadBy(parse, t) == Tail.Stream(parse, t.file)
  {
    assert t.file == t.file[..t.offset] + t.file[t.offset..];
    Tail.StreamConcat(parse, t.file[..t.offset], t.file[t.offset..]);
  }

  /** A transcript is tailed through failures, saved checkpoints and restarts that go back; the store it fills is
      shipped through failed and half-accepted attempts and lost bookmarks, and no recorded pass read it in the
      middle of a replay. Once the tailer has caught up and a pass that read everything succeeds, the server's turns
      of each day are those of the transcript's events of that day, read once. */
  lemma ServerTurnsMatchTranscriptTurns(parse: Tail.Parser, tailing: seq<Tail.Action>, c: Shipping.Setting,
          w: Shipping.World, actions: seq<Shipping.Action>, a: Shipping.Action, day: Day)
    requires Tail.Runs(parse, tailing) && Tail.GoesBack(parse, tailing) && CaughtUp(Tail.After(parse, tailing))
    requires Observed(Tail.Stream(parse, Tail.After(parse, tailing).file))
    requires Ships(c, Tail.Stream(parse, Tail.After(parse, tailing).file), w, actions, a)
    requires TidyRun(c, Tail.Stream(parse, Tail.After(parse, tailing).file), w, actions)
    requires Shipping.After(c, w, actions).local == Tail.After(parse, tailing).log
    ensures SameDay(Accepted(Shipping.Next(c, Shipping.After(c, w, actions), a)),
                    Tail.Stream(parse, Tail.After(parse, tailing).file), day)
  {
    var t := Tail.After(parse, tailing);
    var source := Tail.Stream(parse, t.file);
    ObservedIsDistinct(source);
    ShowsOverRuns(parse, source, tailing);
    AllRead(parse, t);
    forall ev | ev in t.log ensures ev in source {
      LogIsSource(source, t.log, ev);
    }
    CaughtUpIsTidy(parse, tailing, source, day);
    ServerTurnsMatchSourceTurns(c, source, w, actions, a, day);
  }
}
