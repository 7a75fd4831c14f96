/** Following a transcript (scanJSONL in internal/source/claudecode.go, Pass and the checkpoint in
    internal/ingest/ingest.go): whole lines from an offset, the offset kept before a line that fails. */
module Tail {
  import opened Events
  import opened Replay
  import Environment
  import Fold

  /** What one line parses to. */
  type Parser = string -> seq<Event>

  /** Where the first newline is, or the end of a text without one. */
  function NewlineAt(s: string): (i: nat)
    ensures i <= |s|
  {
    if s == "" || s[0] == '\n' then 0 else 1 + NewlineAt(s[1..])
  }

  /** The newline-terminated lines of a text; a trailing partial line is not one of them. */
  function Lines(s: string): seq<string>
    decreases |s|
  {
    var i := NewlineAt(s);
    if i == |s| then [] else [s[..i + 1]] + Lines(s[i + 1..])
  }

  predicate EndsLine(s: string) {
    s == "" || s[|s| - 1] == '\n'
  }

  function ParseAll(parse: Parser, lines: seq<string>): seq<Event> {
    if lines == [] then [] else ParseAll(parse, lines[..|lines| - 1]) + parse(lines[|lines| - 1])
  }

  function LengthOf(lines: seq<string>): nat {
    if lines == [] then 0 else LengthOf(lines[..|lines| - 1]) + |lines[|lines| - 1]|
  }

  function Stream(parse: Parser, s: string): seq<Event> {
    ParseAll(parse, Lines(s))
  }

  /** It is the only position with a newline there and none before. */
  lemma {:induction false} FirstNewline(s: string, i: nat)
    ensures NewlineAt(s) == i <==>
            i <= |s| && (i < |s| ==> s[i] == '\n') && forall j :: 0 <= j < i && j < |s| ==> s[j] != '\n'
  {
    if s != "" && s[0] != '\n' {
      var rest := s[1..];
      if i > 0 {
        FirstNewline(rest, i - 1);
        assert forall j :: 0 <= j < |rest| ==> rest[j] == s[j + 1];
        if NewlineAt(rest) != i - 1 && i <= |s| && (i < |s| ==> s[i] == '\n') {
          var j :| 0 <= j < i - 1 && j < |rest| && rest[j] == '\n';
          assert s[j + 1] == '\n';
        }
      }
    }
  }

  lemma CutFirst(a: string, b: string, i: nat)
    requires i < |a|
    ensures (a + b)[..i + 1] == a[..i + 1] && (a + b)[i + 1..] == a[i + 1..] + b
  {
  }

  /** More text does not change the first line. */
  lemma FirstLineStays(a: string, b: string)
    requires NewlineAt(a) < |a|
    ensures Lines(a + b) == [a[..NewlineAt(a) + 1]] + Lines(a[NewlineAt(a) + 1..] + b)
  {
    var i := NewlineAt(a);
    FirstNewline(a, i);
    FirstNewline(a + b, i);
    CutFirst(a, b, i);
  }

  lemma {:induction false} LinesConcat(a: string, b: string)
    requires EndsLine(a)
    ensures Lines(a + b) == Lines(a) + Lines(b)
    decreases |a|
  {
    if a == "" {
      assert a + b == b;
    } else {
      var i := NewlineAt(a);
      FirstNewline(a, i);
      var rest := a[i + 1..];
      assert EndsLine(rest);
      FirstLineStays(a, b);
      LinesConcat(rest, b);
      assert [a[..i + 1]] + (Lines(rest) + Lines(b)) == ([a[..i + 1]] + Lines(rest)) + Lines(b);
    }
  }

  lemma {:induction false} LinesGrow(a: string, b: string)
    ensures Lines(a) <= Lines(a + b)
    decreases |a|
  {
    var i := NewlineAt(a);
    if i < |a| {
      FirstLineStays(a, b);
      LinesGrow(a[i + 1..], b);
    }
  }

  lemma {:induction false} ParseConcat(parse: Parser, a: seq<string>, b: seq<string>)
    ensures ParseAll(parse, a + b) == ParseAll(parse, a) + ParseAll(parse, b)
  {
    if b == [] {
      assert a + b == a;
    } else {
      assert (a + b)[..|a + b| - 1] == a + b[..|b| - 1];
      ParseConcat(parse, a, b[..|b| - 1]);
    }
  }

  lemma StreamConcat(parse: Parser, a: string, b: string)
    requires EndsLine(a)
    ensures Stream(parse, a + b) == Stream(parse, a) + Stream(parse, b)
  {
    LinesConcat(a, b);
    ParseConcat(parse, Lines(a), Lines(b));
  }

  lemma StreamGrows(parse: Parser, a: string, b: string)
    ensures Stream(parse, a) <= Stream(parse, a + b)
  {
    LinesGrow(a, b);
    var more := Lines(a + b)[|Lines(a)|..];
    assert Lines(a + b) == Lines(a) + more;
    ParseConcat(parse, Lines(a), more);
  }

  // ---------------------------------------------------------------------------------------------
  // The scan
  // ---------------------------------------------------------------------------------------------

  /** Where a scan that starts at `from` begins: a file that shrank is read again from its start. */
  function StartAt(file: string, from: nat): (start: nat)
    ensures start <= |file|
  {
    if |file| < from then 0 else from
  }

  /** What the line after those taken left in the store, when it failed after `partial` events. */
  function CutShort(parse: Parser, ahead: seq<string>, taken: seq<string>, partial: nat): seq<Event>
    requires Fits(parse, ahead, taken, partial)
  {
    if |taken| == |ahead| then [] else parse(ahead[|taken|])[..partial]
  }

  predicate Fits(parse: Parser, ahead: seq<string>, taken: seq<string>, partial: nat) {
    && taken <= ahead
    && if |taken| == |ahead| then partial == 0 else partial <= |parse(ahead[|taken|])|
  }

  /** A scan from `start` took some whole lines and got to `consumed`. */
  predicate Scanned(parse: Parser, file: string, start: nat, consumed: nat, taken: seq<string>, partial: nat,
          was: seq<Event>, now: seq<Event>)
    requires start <= |file|
  {
    var ahead := Lines(file[start..]);
    && Fits(parse, ahead, taken, partial)
    && consumed == start + LengthOf(taken) <= |file|
    && now == was + ParseAll(parse, taken) + CutShort(parse, ahead, taken, partial)
  }

  lemma MoveOver<T>(a: seq<T>, x: T, b: seq<T>)
    ensures a + ([x] + b) == (a + [x]) + b && (a + ([x] + b))[|a|] == x
    ensures a < a + ([x] + b)
  {
  }

  lemma {:induction false} HeadLine(s: string)
    requires NewlineAt(s) < |s|
    ensures Lines(s) == [s[..NewlineAt(s) + 1]] + Lines(s[NewlineAt(s) + 1..])
  {
  }

  /** Taking the next line off what is still unread. */
  lemma {:induction false} TakeLine(unread: string, all: seq<string>, taken: seq<string>)
    requires NewlineAt(unread) < |unread| && all == taken + Lines(unread)
    ensures var i := NewlineAt(unread);
            && taken < all && all[|taken|] == unread[..i + 1]
            && all == (taken + [unread[..i + 1]]) + Lines(unread[i + 1..])
  {
    var line, more := unread[..NewlineAt(unread) + 1], Lines(unread[NewlineAt(unread) + 1..]);
    HeadLine(unread);
    MoveOver(taken, line, more);
  }

  lemma TakenSnoc(parse: Parser, taken: seq<string>, line: string)
    ensures ParseAll(parse, taken + [line]) == ParseAll(parse, taken) + parse(line)
    ensures LengthOf(taken + [line]) == LengthOf(taken) + |line|
  {
    assert (taken + [line])[..|taken|] == taken;
  }

  /** Between two lines: what is unread follows what was taken. */
  predicate Between(file: string, start: nat, consumed: nat, unread: string, taken: seq<string>)
    requires start <= |file|
  {
    && consumed + |unread| == |file| && consumed == start + LengthOf(taken)
    && Lines(file[start..]) == taken + Lines(unread)
  }

  lemma NextLine(parse: Parser, file: string, start: nat, consumed: nat, unread: string, taken: seq<string>)
    requires start <= |file| && Between(file, start, consumed, unread, taken)
    requires NewlineAt(unread) < |unread|
    ensures var line := unread[..NewlineAt(unread) + 1];
            && taken < Lines(file[start..]) && Lines(file[start..])[|taken|] == line
            && Between(file, start, consumed + |line|, unread[|line|..], taken + [line])
            && forall was :: was + ParseAll(parse, taken + [line]) == was + ParseAll(parse, taken) + parse(line)
  {
    TakeLine(unread, Lines(file[start..]), taken);
    var line := unread[..NewlineAt(unread) + 1];
    TakenSnoc(parse, taken, line);
    assert forall was :: was + (ParseAll(parse, taken) + parse(line)) == was + ParseAll(parse, taken) + parse(line);
  }

  lemma LastLine(file: string, start: nat, consumed: nat, unread: string, taken: seq<string>)
    requires start <= |file| && Between(file, start, consumed, unread, taken)
    requires NewlineAt(unread) == |unread|
    ensures taken == Lines(file[start..])
  {
  }

  class Ingester {
    const parse: Parser
    var offset: nat
    var log: seq<Event>

    constructor (parse: Parser, offset: nat)
      ensures this.parse == parse && this.offset == offset && log == []
    {
      this.parse, this.offset, log := parse, offset, [];
    }

    /** Parse and append one line, event by event; the store may refuse any of them. */
    method Handle(line: string, steady: bool) returns (ok: bool, ghost accepted: nat)
      modifies `log
      ensures accepted <= |parse(line)| && log == old(log) + parse(line)[..accepted]
      ensures (ok ==> accepted == |parse(line)|) && (steady ==> ok)
    {
      var events := parse(line);
      accepted := 0;
      for i := 0 to |events|
        invariant accepted == i && log == old(log) + events[..i]
      {
        var failed := Environment.Fails(steady);
        if failed {
          return false, accepted;
        }
        log := log + [events[i]];
        accepted := i + 1;
      }
      return true, accepted;
    }

    method ScanJSONL(file: string, from: nat, steady: bool)
      returns (consumed: nat, failed: bool, ghost taken: seq<string>, ghost partial: nat)
      modifies `log
      ensures Scanned(parse, file, StartAt(file, from), consumed, taken, partial, old(log), log)
      ensures steady ==> !failed
      ensures failed <==> |taken| < |Lines(file[StartAt(file, from)..])|
    {
      var start := if |file| < from then 0 else from;
      var unread := file[start..];
      consumed, failed, taken, partial := start, false, [], 0;
      while NewlineAt(unread) < |unread|
        invariant Between(file, start, consumed, unread, taken)
        invariant log == old(log) + ParseAll(parse, taken)
        decreases |unread|
      {
        var line := unread[..NewlineAt(unread) + 1];
        NextLine(parse, file, start, consumed, unread, taken);
        var ok, accepted := Handle(line, steady);
        if !ok {
          failed, partial := true, accepted;
          return;
        }
        assert parse(line)[..accepted] == parse(line);
        unread := unread[|line|..];
        consumed, taken := consumed + |line|, taken + [line];
      }
      // what is left has no line end: the last line is not whole yet
      LastLine(file, start, consumed, unread, taken);
    }

    /** One pass over one file: skip it if it has not grown, otherwise scan and remember how far. */
    method Pass(file: string, steady: bool) returns (ghost taken: seq<string>, ghost partial: nat)
      modifies this
      ensures |file| == old(offset) ==> offset == old(offset) && log == old(log)
      ensures |file| != old(offset) ==>
        && Scanned(parse, file, StartAt(file, old(offset)), offset, taken, partial, old(log), log)
        && (steady ==> taken == Lines(file[StartAt(file, old(offset))..]))
      ensures steady && |file| > old(offset) ==> log == old(log) + Stream(parse, file[old(offset)..])
      ensures steady && |file| < old(offset) ==> log == old(log) + Stream(parse, file)
    {
      taken, partial := [], 0;
      if |file| == offset {
        return;
      }
      var next, failed;
      next, failed, taken, partial := ScanJSONL(file, offset, steady);
      offset := next;
      assert file[0..] == file;
    }
  }

  // ---------------------------------------------------------------------------------------------
  // Runs: the file grows, scans fail half-way, the program restarts
  // ---------------------------------------------------------------------------------------------

  /** A file, how far it has been read, what the saved checkpoint says, and the store. */
  datatype Tailer = Tailer(file: string, offset: nat, saved: nat, log: seq<Event>)

  const NOTHING_READ := Tailer("", 0, 0, [])

  /** `Scan` takes whole lines and, if the store then fails, part of the next. `Restart` goes back to
      the saved checkpoint, `Recapture` forgets it. */
  datatype Action = Grow(text: string) | Scan(lines: nat, partial: nat) | Save | Restart | Recapture

  function Ahead(t: Tailer): seq<string>
    requires t.offset <= |t.file|
  {
    Lines(t.file[t.offset..])
  }

  predicate Can(parse: Parser, t: Tailer, a: Action) {
    && t.offset <= |t.file|
    && (a.Scan? ==> a.lines <= |Ahead(t)| && Fits(parse, Ahead(t), Ahead(t)[..a.lines], a.partial))
  }

  function Do(parse: Parser, t: Tailer, a: Action): Tailer
    requires Can(parse, t, a)
  {
    match a
    case Grow(text) => t.(file := t.file + text)
    case Scan(lines, partial) =>
      var taken := Ahead(t)[..lines];
      t.(offset := t.offset + LengthOf(taken),
         log := t.log + ParseAll(parse, taken) + CutShort(parse, Ahead(t), taken, partial))
    case Save => t.(saved := t.offset)
    case Restart => t.(offset := t.saved)
    case Recapture => t.(offset := 0)
  }

  predicate Runs(parse: Parser, actions: seq<Action>)
    decreases |actions|, 0
  {
    actions == [] || (
      && Runs(parse, actions[..|actions| - 1])
      && Can(parse, After(parse, actions[..|actions| - 1]), actions[|actions| - 1]))
  }

  function After(parse: Parser, actions: seq<Action>): Tailer
    requires Runs(parse, actions)
    decreases |actions|, 1
  {
    if actions == [] then NOTHING_READ
    else Do(parse, After(parse, actions[..|actions| - 1]), actions[|actions| - 1])
  }

  /** Every restart goes back to where the reader is, or to before it. */
  predicate GoesBack(parse: Parser, actions: seq<Action>)
    requires Runs(parse, actions)
  {
    actions == [] || (
      var init := actions[..|actions| - 1];
      && GoesBack(parse, init)
      && (actions[|actions| - 1].Restart? ==> After(parse, init).saved <= After(parse, init).offset))
  }

  /** Every event the file holds may be observed again, and is dated (Pass dates the undated). */
  predicate Sound(es: seq<Event>) {
    AllReplayable(es) && forall ev :: ev in es ==> Dated(ev)
  }

  predicate Boundary(file: string, offset: nat) {
    offset <= |file| && EndsLine(file[..offset])
  }

  // ---------------------------------------------------------------------------------------------
  // Where a scan stops
  // ---------------------------------------------------------------------------------------------

  lemma {:induction false} LengthConcat(a: seq<string>, b: seq<string>)
    ensures LengthOf(a + b) == LengthOf(a) + LengthOf(b)
    decreases |b|
  {
    if b == [] {
      assert a + b == a;
    } else {
      assert (a + b)[..|a + b| - 1] == a + b[..|b| - 1];
      LengthConcat(a, b[..|b| - 1]);
    }
  }

  lemma OneLine(line: string)
    requires line != "" && NewlineAt(line) == |line| - 1
    ensures Lines(line) == [line] && EndsLine(line) && LengthOf([line]) == |line|
  {
    FirstNewline(line, |line| - 1);
    assert line[..|line|] == line && line[|line|..] == "";
    assert [line][..0] == [];
  }

  lemma FirstLine(s: string)
    requires NewlineAt(s) < |s|
    ensures var line := s[..NewlineAt(s) + 1];
            Lines(line) == [line] && EndsLine(line) && LengthOf([line]) == |line|
  {
    var line := s[..NewlineAt(s) + 1];
    FirstNewline(s, NewlineAt(s));
    FirstNewline(line, NewlineAt(s));
    OneLine(line);
  }

  lemma SplitFirst(s: string, at: nat, first: nat)
    requires first <= at <= |s|
    ensures s[..at] == s[..first] + s[first..][..at - first]
    ensures EndsLine(s[..first]) && EndsLine(s[first..][..at - first]) ==> EndsLine(s[..at])
  {
  }

  lemma TakePast<T>(x: T, b: seq<T>, k: nat)
    requires 0 < k <= 1 + |b|
    ensures ([x] + b)[..k] == [x] + b[..k - 1]
  {
  }

  /** The text up to the end of the k-th line holds exactly the first k lines. */
  predicate HoldsFirst(s: string, k: nat, at: nat) {
    k <= |Lines(s)| && at <= |s| && EndsLine(s[..at]) && Lines(s[..at]) == Lines(s)[..k]
  }

  lemma TakeInto(a: string, b: string, at: nat)
    requires at <= |b|
    ensures (a + b)[..|a| + at] == a + b[..at]
    ensures EndsLine(a) && EndsLine(b[..at]) ==> EndsLine(a + b[..at])
  {
  }

  lemma HoldsOneMore(first: string, rest: string, k: nat, at: nat)
    requires Lines(first) == [first] && EndsLine(first) && HoldsFirst(rest, k, at)
    ensures HoldsFirst(first + rest, k + 1, |first| + at)
  {
    TakeInto(first, rest, at);
    LinesConcat(first, rest);
    LinesConcat(first, rest[..at]);
    TakePast(first, Lines(rest), k + 1);
  }

  lemma LengthPast(first: string, tail: seq<string>, k: nat)
    requires 0 < k <= 1 + |tail|
    ensures LengthOf(([first] + tail)[..k]) == |first| + LengthOf(tail[..k - 1])
  {
    TakePast(first, tail, k);
    LengthConcat([first], tail[..k - 1]);
    assert [first][..0] == [];
  }

  lemma FirstThenRest(first: string, rest: string, k: nat)
    requires Lines(first) == [first] && EndsLine(first) && 0 < k <= 1 + |Lines(rest)|
    requires HoldsFirst(rest, k - 1, LengthOf(Lines(rest)[..k - 1]))
    ensures Lines(first + rest) == [first] + Lines(rest)
    ensures HoldsFirst(first + rest, k, LengthOf(Lines(first + rest)[..k]))
  {
    LinesConcat(first, rest);
    LengthPast(first, Lines(rest), k);
    HoldsOneMore(first, rest, k - 1, LengthOf(Lines(rest)[..k - 1]));
  }

  lemma Cut(s: string, n: nat)
    requires n <= |s|
    ensures s[..n] + s[n..] == s
  {
  }

  lemma {:induction false} LinesTaken(s: string, k: nat)
    requires k <= |Lines(s)|
    ensures HoldsFirst(s, k, LengthOf(Lines(s)[..k]))
    decreases k
  {
    if k > 0 {
      var n := NewlineAt(s) + 1;
      HeadLine(s);
      FirstLine(s);
      LinesTaken(s[n..], k - 1);
      FirstThenRest(s[..n], s[n..], k);
      Cut(s, n);
    }
  }

  /** A scan moves the stream position by exactly the events of the lines it took. */
  lemma ScanMoves(parse: Parser, t: Tailer, lines: nat)
    requires Boundary(t.file, t.offset) && lines <= |Ahead(t)|
    ensures var to := t.offset + LengthOf(Ahead(t)[..lines]);
            && Boundary(t.file, to)
            && Stream(parse, t.file[..to]) == Stream(parse, t.file[..t.offset]) + ParseAll(parse, Ahead(t)[..lines])
  {
    var rest := t.file[t.offset..];
    var n := LengthOf(Ahead(t)[..lines]);
    LinesTaken(rest, lines);
    SplitFirst(t.file, t.offset + n, t.offset);
    StreamConcat(parse, t.file[..t.offset], rest[..n]);
  }

  lemma PrefixOfConcat<T>(a: seq<T>, b: seq<T>, n: nat)
    requires n <= |b|
    ensures a + b[..n] <= a + b
  {
  }

  /** What a scan emits is what comes next on the stream. */
  lemma ScanReads(parse: Parser, t: Tailer, lines: nat, partial: nat)
    requires Boundary(t.file, t.offset) && Can(parse, t, Scan(lines, partial))
    ensures var taken := Ahead(t)[..lines];
            Stream(parse, t.file[..t.offset]) + (ParseAll(parse, taken) + CutShort(parse, Ahead(t), taken, partial))
            <= Stream(parse, t.file)
  {
    var ahead := Ahead(t);
    var taken := ahead[..lines];
    var before := Stream(parse, t.file[..t.offset]);
    assert t.file == t.file[..t.offset] + t.file[t.offset..];
    StreamConcat(parse, t.file[..t.offset], t.file[t.offset..]);
    if lines == |ahead| {
      assert taken == ahead;
    } else {
      var next := ahead[lines];
      assert ahead == taken + [next] + ahead[lines + 1..];
      ParseConcat(parse, taken + [next], ahead[lines + 1..]);
      TakenSnoc(parse, taken, next);
      PrefixOfConcat(ParseAll(parse, taken), parse(next), partial);
      assert ParseAll(parse, taken) + parse(next)[..partial] <= ParseAll(parse, ahead);
    }
  }

  // ---------------------------------------------------------------------------------------------
  // Every run folds once
  // ---------------------------------------------------------------------------------------------

  /** The reader as a tape over the stream of events; `reached` is the furthest it ever was. */
  function TapeOf(parse: Parser, t: Tailer, reached: nat): Tape
    requires t.offset <= |t.file|
  {
    Tape(t.log, |Stream(parse, t.file[..t.offset])|, reached)
  }

  ghost predicate Inv(parse: Parser, t: Tailer, reached: nat) {
    && Boundary(t.file, t.offset) && Boundary(t.file, t.saved)
    && CatchesUp(Fold.START, Stream(parse, t.file), TapeOf(parse, t, reached))
  }

  /** Emitting several events in a row. */
  lemma {:induction false} EmitSome(log: seq<Event>, t: Tape, n: nat) returns (u: Tape)
    requires Sound(log) && CatchesUp(Fold.START, log, t) && t.position + n <= |log|
    ensures CatchesUp(Fold.START, log, u)
    ensures u.emitted == t.emitted + log[t.position..t.position + n] && u.position == t.position + n
    decreases n
  {
    if n == 0 {
      u := t;
    } else {
      var v := EmitSome(log, t, n - 1);
      AdvanceCatchesUp(Fold.START, log, v, Emit);
      u := Advance(log, v, Emit);
      assert log[t.position..t.position + n] == log[t.position..t.position + n - 1] + [log[t.position + n - 1]];
    }
  }

  /** Appending to the stream takes nothing away from what was promised about it. */
  lemma CatchesUpGrows(log: seq<Event>, more: seq<Event>, t: Tape)
    requires CatchesUp(Fold.START, log, t) && log <= more
    ensures CatchesUp(Fold.START, more, t)
  {
    assert more[..t.reached] == log[..t.reached];
    forall j: nat, rest: seq<Event> | j <= t.position ensures Recovers(Fold.START, more, t, j, rest) {
      assert Recovers(Fold.START, log, t, j, rest);
      assert more[j..t.reached] == log[j..t.reached];
    }
  }

  lemma EmitThenRewind(log: seq<Event>, t: Tape, whole: seq<Event>, part: seq<Event>) returns (u: Tape)
    requires Sound(log) && CatchesUp(Fold.START, log, t) && log[..t.position] + (whole + part) <= log
    ensures CatchesUp(Fold.START, log, u)
    ensures u.emitted == t.emitted + whole + part && u.position == t.position + |whole|
  {
    var v := EmitSome(log, t, |whole + part|);
    assert log[t.position..t.position + |whole + part|] == whole + part;
    assert t.emitted + (whole + part) == t.emitted + whole + part;
    u := Advance(log, v, Rewind(t.position + |whole|));
    AdvanceCatchesUp(Fold.START, log, v, Rewind(t.position + |whole|));
  }

  lemma ScanKeepsInv(parse: Parser, t: Tailer, reached: nat, lines: nat, partial: nat) returns (now: nat)
    requires Inv(parse, t, reached) && Sound(Stream(parse, t.file)) && Can(parse, t, Scan(lines, partial))
    ensures Inv(parse, Do(parse, t, Scan(lines, partial)), now)
  {
    var taken := Ahead(t)[..lines];
    var whole := ParseAll(parse, taken);
    ScanReads(parse, t, lines, partial);
    ScanMoves(parse, t, lines);
    var before := Stream(parse, t.file[..t.offset]);
    assert Stream(parse, t.file)[..|before|] == before;
    var u := EmitThenRewind(Stream(parse, t.file), TapeOf(parse, t, reached), whole,
                            CutShort(parse, Ahead(t), taken, partial));
    now := u.reached;
    assert u == TapeOf(parse, Do(parse, t, Scan(lines, partial)), now);
  }

  lemma GrowKeepsInv(parse: Parser, t: Tailer, reached: nat, text: string)
    requires Inv(parse, t, reached)
    ensures Inv(parse, Do(parse, t, Grow(text)), reached)
  {
    StreamGrows(parse, t.file, text);
    assert (t.file + text)[..t.offset] == t.file[..t.offset];
    assert (t.file + text)[..t.saved] == t.file[..t.saved];
    CatchesUpGrows(Stream(parse, t.file), Stream(parse, t.file + text), TapeOf(parse, t, reached));
  }

  lemma RewindKeepsInv(parse: Parser, t: Tailer, reached: nat, to: nat)
    requires Inv(parse, t, reached) && Sound(Stream(parse, t.file))
    requires to <= t.offset && Boundary(t.file, to)
    ensures Inv(parse, t.(offset := to), reached)
  {
    assert t.file[..t.offset] == t.file[..to] + t.file[to..t.offset];
    StreamGrows(parse, t.file[..to], t.file[to..t.offset]);
    AdvanceCatchesUp(Fold.START, Stream(parse, t.file), TapeOf(parse, t, reached),
                     Rewind(|Stream(parse, t.file[..to])|));
  }

  lemma StepKeepsInv(parse: Parser, t: Tailer, reached: nat, a: Action) returns (now: nat)
    requires Inv(parse, t, reached) && Sound(Stream(parse, t.file)) && Can(parse, t, a)
    requires a.Restart? ==> t.saved <= t.offset
    ensures Inv(parse, Do(parse, t, a), now)
  {
    now := reached;
    match a {
      case Grow(text) => GrowKeepsInv(parse, t, reached, text);
      case Scan(lines, partial) => now := ScanKeepsInv(parse, t, reached, lines, partial);
      case Save =>
      case Restart => RewindKeepsInv(parse, t, reached, t.saved);
      case Recapture => RewindKeepsInv(parse, t, reached, 0);
    }
  }

  lemma SoundBefore(parse: Parser, t: Tailer, a: Action)
    requires Can(parse, t, a) && Sound(Stream(parse, Do(parse, t, a).file))
    ensures Sound(Stream(parse, t.file))
  {
    if a.Grow? {
      StreamGrows(parse, t.file, a.text);
    }
  }

  lemma {:induction false} InvOverRuns(parse: Parser, actions: seq<Action>) returns (reached: nat)
    requires Runs(parse, actions) && GoesBack(parse, actions) && Sound(Stream(parse, After(parse, actions).file))
    ensures Inv(parse, After(parse, actions), reached)
    decreases |actions|
  {
    if actions == [] {
      reached := 0;
      FreshTapeCatchesUp(Fold.START, Stream(parse, ""));
    } else {
      var init, last := actions[..|actions| - 1], actions[|actions| - 1];
      SoundBefore(parse, After(parse, init), last);
      var r := InvOverRuns(parse, init);
      reached := StepKeepsInv(parse, After(parse, init), r, last);
    }
  }

  /** In every run, whatever its restarts, the offset and the checkpoint are on line boundaries. */
  lemma {:induction false} OffsetsAreLineEnds(parse: Parser, actions: seq<Action>)
    requires Runs(parse, actions)
    ensures var t := After(parse, actions); Boundary(t.file, t.offset) && Boundary(t.file, t.saved)
    decreases |actions|
  {
    if actions != [] {
      var init, last := actions[..|actions| - 1], actions[|actions| - 1];
      OffsetsAreLineEnds(parse, init);
      var t := After(parse, init);
      match last {
        case Grow(text) =>
          assert (t.file + text)[..t.offset] == t.file[..t.offset];
          assert (t.file + text)[..t.saved] == t.file[..t.saved];
        case Scan(lines, partial) => ScanMoves(parse, t, lines);
        case _ =>
      }
    }
  }

  /** The store, once the lines still unread are folded too, is the file read once. */
  predicate FoldsOnce(parse: Parser, t: Tailer)
    requires t.offset <= |t.file|
  {
    Fold.FoldFrom(Fold.START, t.log + Stream(parse, t.file[t.offset..]))
    == Fold.FoldFrom(Fold.START, Stream(parse, t.file))
  }

  /** As long as no restart skips ahead of the reader, whatever was replayed after failures and restarts is
      absorbed. */
  lemma TailingFoldsOnce(parse: Parser, actions: seq<Action>)
    requires Runs(parse, actions) && GoesBack(parse, actions) && Sound(Stream(parse, After(parse, actions).file))
    ensures Boundary(After(parse, actions).file, After(parse, actions).offset)
    ensures FoldsOnce(parse, After(parse, actions))
  {
    var t := After(parse, actions);
    var reached := InvOverRuns(parse, actions);
    var read, unread := Stream(parse, t.file[..t.offset]), Stream(parse, t.file[t.offset..]);
    assert t.file == t.file[..t.offset] + t.file[t.offset..];
    StreamConcat(parse, t.file[..t.offset], t.file[t.offset..]);
    CaughtUp(Fold.START, read + unread, TapeOf(parse, t, reached));
    assert (read + unread)[|read|..] == unread;
  }

  /** A run that neither fails nor restarts. */
  predicate Undisturbed(actions: seq<Action>) {
    forall a :: a in actions ==> a.Grow? || a.Save? || (a.Scan? && a.partial == 0)
  }

  /** Then every complete line before the offset was handled exactly once, in order. */
  lemma {:induction false} EachLineOnce(parse: Parser, actions: seq<Action>)
    requires Runs(parse, actions) && Undisturbed(actions)
    ensures var t := After(parse, actions);
            Boundary(t.file, t.offset) && t.log == Stream(parse, t.file[..t.offset])
    decreases |actions|
  {
    if actions != [] {
      var init, last := actions[..|actions| - 1], actions[|actions| - 1];
      assert last in actions && forall a :: a in init ==> a in actions;
      EachLineOnce(parse, init);
      var t := After(parse, init);
      match last {
        case Grow(text) => assert (t.file + text)[..t.offset] == t.file[..t.offset];
        case Scan(lines, partial) => ScanMoves(parse, t, lines);
        case Save =>
      }
    }
  }

  /** What the method `ScanJSONL` ensures is exactly one `Scan` of a run. */
  lemma ScanIsAStep(parse: Parser, t: Tailer, consumed: nat, taken: seq<string>, partial: nat, now: seq<Event>)
    requires t.offset <= |t.file| && Scanned(parse, t.file, t.offset, consumed, taken, partial, t.log, now)
    ensures Can(parse, t, Scan(|taken|, partial))
    ensures Do(parse, t, Scan(|taken|, partial)) == t.(offset := consumed, log := now)
  {
    assert Ahead(t)[..|taken|] == taken;
  }
}
