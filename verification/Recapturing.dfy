/** Forgetting the checkpoint to read a file again, and being restarted half-way: the saved checkpoint is then
    ahead of the reader, and the restart skips to it (internal/ingest/ingest.go:233-335). */
module Recapturing {
  import opened Events
  import opened Tail
  import Fold

  /** A file is read and the checkpoint saved; it is read again up to line `k`; then the program is
      restarted. */
  function Interrupted(file: string, k: nat): seq<Action> {
    Reread(file, k) + [Restart]
  }

  function Reread(file: string, k: nat): seq<Action> {
    ReadOnce(file) + [Recapture] + [Scan(k, 0)]
  }

  function ReadOnce(file: string): seq<Action> {
    [] + [Grow(file)] + [Scan(|Lines(file)|, 0)] + [Save]
  }

  lemma OneMore(parse: Parser, init: seq<Action>, a: Action)
    requires Runs(parse, init) && GoesBack(parse, init) && Can(parse, After(parse, init), a)
    ensures Runs(parse, init + [a]) && After(parse, init + [a]) == Do(parse, After(parse, init), a)
    ensures GoesBack(parse, init + [a]) <==> (a.Restart? ==> After(parse, init).saved <= After(parse, init).offset)
  {
    assert (init + [a])[..|init|] == init;
  }

  /** Reading the first `k` lines of a file. */
  lemma ScanFromStart(parse: Parser, t: Tailer, k: nat)
    requires t.offset == 0 && k <= |Lines(t.file)|
    ensures Can(parse, t, Scan(k, 0))
    ensures Do(parse, t, Scan(k, 0)) == t.(offset := LengthOf(Lines(t.file)[..k]),
                                           log := t.log + ParseAll(parse, Lines(t.file)[..k]))
    ensures LengthOf(Lines(t.file)[..k]) <= |t.file|
  {
    assert t.file[0..] == t.file;
    LinesTaken(t.file, k);
  }

  lemma ReadsOnce(parse: Parser, file: string)
    ensures Runs(parse, ReadOnce(file)) && GoesBack(parse, ReadOnce(file))
    ensures After(parse, ReadOnce(file))
        == Tailer(file, LengthOf(Lines(file)), LengthOf(Lines(file)), Stream(parse, file))
    ensures LengthOf(Lines(file)) <= |file|
  {
    OneMore(parse, [], Grow(file));
    var grown := Tailer(file, 0, 0, []);
    assert NOTHING_READ.file + file == file;
    ScanFromStart(parse, grown, |Lines(file)|);
    assert Lines(file)[..|Lines(file)|] == Lines(file);
    OneMore(parse, [] + [Grow(file)], Scan(|Lines(file)|, 0));
    OneMore(parse, [] + [Grow(file)] + [Scan(|Lines(file)|, 0)], Save);
  }

  lemma ReadsAgain(parse: Parser, file: string, k: nat)
    requires k <= |Lines(file)|
    ensures Runs(parse, Reread(file, k)) && GoesBack(parse, Reread(file, k))
    ensures After(parse, Reread(file, k)) == Tailer(file, LengthOf(Lines(file)[..k]), LengthOf(Lines(file)),
                                                    Stream(parse, file) + ParseAll(parse, Lines(file)[..k]))
    ensures LengthOf(Lines(file)[..k]) <= |file| && LengthOf(Lines(file)) <= |file|
  {
    ReadsOnce(parse, file);
    OneMore(parse, ReadOnce(file), Recapture);
    ScanFromStart(parse, Tailer(file, 0, LengthOf(Lines(file)), Stream(parse, file)), k);
    OneMore(parse, ReadOnce(file) + [Recapture], Scan(k, 0));
  }

  /** The restart leaves the reader at the end of the lines, past those that were still to be read again. */
  lemma SkipsAhead(parse: Parser, file: string, k: nat)
    requires k <= |Lines(file)|
    ensures Runs(parse, Interrupted(file, k))
    ensures After(parse, Interrupted(file, k)) == Tailer(file, LengthOf(Lines(file)), LengthOf(Lines(file)),
                                                         Stream(parse, file) + ParseAll(parse, Lines(file)[..k]))
    ensures LengthOf(Lines(file)) <= |file|
    ensures GoesBack(parse, Interrupted(file, k)) <==> LengthOf(Lines(file)) <= LengthOf(Lines(file)[..k])
  {
    ReadsAgain(parse, file, k);
    OneMore(parse, Reread(file, k), Restart);
  }

  /** After it the store, with what is still unread, folds as the file read once. */
  ghost predicate Survives(parse: Parser, file: string, k: nat) {
    && Runs(parse, Interrupted(file, k))
    && After(parse, Interrupted(file, k)).offset <= |file| && After(parse, Interrupted(file, k)).file == file
    && FoldsOnce(parse, After(parse, Interrupted(file, k)))
  }

  lemma {:induction false} NoneAfterAll(file: string, n: nat)
    requires n <= |file| && EndsLine(file[..n]) && Lines(file[..n]) == Lines(file)
    ensures Lines(file[n..]) == []
  {
    var unread := file[n..];
    assert file == file[..n] + unread;
    LinesConcat(file[..n], unread);
    assert |Lines(file)| == |Lines(file[..n])| + |Lines(unread)|;
  }

  lemma {:induction false} NothingUnread(file: string)
    ensures LengthOf(Lines(file)) <= |file| && Lines(file[LengthOf(Lines(file))..]) == []
  {
    LinesTaken(file, |Lines(file)|);
    assert Lines(file)[..|Lines(file)|] == Lines(file);
    NoneAfterAll(file, LengthOf(Lines(file)));
  }

  /** What the outcome comes down to: folding the lines read again after all the others. */
  lemma ComesDownTo(parse: Parser, file: string, k: nat)
    requires k <= |Lines(file)|
    ensures Survives(parse, file, k) <==>
            Fold.FoldFrom(Fold.START, Stream(parse, file) + ParseAll(parse, Lines(file)[..k]))
            == Fold.FoldFrom(Fold.START, Stream(parse, file))
  {
    SkipsAhead(parse, file, k);
    NothingUnread(file);
    var log := Stream(parse, file) + ParseAll(parse, Lines(file)[..k]);
    assert log + [] == log;
  }

  // ---------------------------------------------------------------------------------------------
  // The run that fails
  // ---------------------------------------------------------------------------------------------

  const EARLY := BLANK_EVENT.(timestamp := 1, messageID := "m", sessionID := "a")

  const LATE := EARLY.(sessionID := "b")

  /** Two observations of one turn, and lines that hold nothing. */
  function ParseLine(line: string): seq<Event> {
    if line == "a\n" then [EARLY] else if line == "b\n" then [LATE] else []
  }

  function Blank(n: nat): string {
    if n == 0 then "" else "\n" + Blank(n - 1)
  }

  function Blanks(n: nat): seq<string> {
    if n == 0 then [] else ["\n"] + Blanks(n - 1)
  }

  lemma {:induction false} BlankLines(n: nat)
    ensures Lines(Blank(n)) == Blanks(n) && EndsLine(Blank(n)) && |Blanks(n)| == n
  {
    if n > 0 {
      BlankLines(n - 1);
      OneLine("\n");
      LinesConcat("\n", Blank(n - 1));
    }
  }

  lemma {:induction false} BlanksHoldNothing(parse: Parser, n: nat)
    requires parse("\n") == []
    ensures ParseAll(parse, Blanks(n)) == []
  {
    if n > 0 {
      BlanksHoldNothing(parse, n - 1);
      ParseConcat(parse, ["\n"], Blanks(n - 1));
      assert ["\n"][..0] == [];
    }
  }

  /** The earlier observation on line `k`, the later on the next. */
  function ExampleFile(n: nat, k: nat): string
    requires 0 < k < n
  {
    Blank(k - 1) + ("a\n" + ("b\n" + Blank(n - k - 1)))
  }

  lemma {:induction false} TwoLines(before: string, a: string, b: string, after: string)
    requires EndsLine(before) && Lines(a) == [a] && EndsLine(a) && Lines(b) == [b] && EndsLine(b)
    ensures Lines(before + (a + (b + after))) == Lines(before) + ([a] + ([b] + Lines(after)))
  {
    LinesConcat(b, after);
    LinesConcat(a, b + after);
    LinesConcat(before, a + (b + after));
  }

  lemma ExampleLines(n: nat, k: nat)
    requires 0 < k < n
    ensures Lines(ExampleFile(n, k)) == Blanks(k - 1) + (["a\n"] + (["b\n"] + Blanks(n - k - 1)))
  {
    BlankLines(k - 1);
    BlankLines(n - k - 1);
    FirstNewline("a\n", 1);
    FirstNewline("b\n", 1);
    OneLine("a\n");
    OneLine("b\n");
    TwoLines(Blank(k - 1), "a\n", "b\n", Blank(n - k - 1));
  }

  lemma OneParsed(parse: Parser, line: string)
    ensures ParseAll(parse, [line]) == parse(line)
  {
    assert [line][..0] == [];
  }

  lemma TwoAmongBlanks(parse: Parser, before: seq<string>, a: string, b: string, after: seq<string>)
    requires ParseAll(parse, before) == [] && ParseAll(parse, after) == []
    ensures var lines := before + ([a] + ([b] + after));
            && ParseAll(parse, lines) == parse(a) + parse(b)
            && ParseAll(parse, lines[..|before| + 1]) == parse(a)
  {
    OneParsed(parse, a);
    OneParsed(parse, b);
    ParseConcat(parse, [b], after);
    ParseConcat(parse, [a], [b] + after);
    ParseConcat(parse, before, [a] + ([b] + after));
    ParseConcat(parse, before, [a]);
    assert (before + ([a] + ([b] + after)))[..|before| + 1] == before + [a];
  }

  lemma ExampleHas(n: nat, k: nat)
    requires 0 < k < n
    ensures |Lines(ExampleFile(n, k))| == n
  {
    BlankLines(k - 1);
    BlankLines(n - k - 1);
    ExampleLines(n, k);
  }

  lemma ExampleParses(parse: Parser, n: nat, k: nat)
    requires 0 < k < n && parse("\n") == []
    ensures k <= |Lines(ExampleFile(n, k))|
    ensures Stream(parse, ExampleFile(n, k)) == parse("a\n") + parse("b\n")
    ensures ParseAll(parse, Lines(ExampleFile(n, k))[..k]) == parse("a\n")
  {
    BlankLines(k - 1);
    ExampleHas(n, k);
    ExampleLines(n, k);
    BlanksHoldNothing(parse, k - 1);
    BlanksHoldNothing(parse, n - k - 1);
    TwoAmongBlanks(parse, Blanks(k - 1), "a\n", "b\n", Blanks(n - k - 1));
  }

  /** The earlier observation, folded again after the later, is the last word. */
  lemma EarlierWins(log: seq<Event>)
    requires log == [EARLY, LATE]
    ensures Sound(log)
    ensures Fold.FoldFrom(Fold.START, log + [EARLY]) != Fold.FoldFrom(Fold.START, log)
  {
    var key := Fold.TurnKey(LATE);
    var once := Fold.FoldFrom(Fold.START, log);
    assert log[..1] == [EARLY] && [EARLY][..0] == [];
    assert (log + [EARLY])[..2] == log;
    assert once.byTurn[key].SessionID() == "b";
    var twice := Fold.FoldFrom(Fold.START, log + [EARLY]);
    assert twice == Fold.Step(once, EARLY);
    assert twice.byTurn[key].SessionID() == "a";
  }

  lemma ExampleFails(n: nat, k: nat)
    requires 0 < k < n
    ensures |Lines(ExampleFile(n, k))| == n && Sound(Stream(ParseLine, ExampleFile(n, k)))
    ensures !Survives(ParseLine, ExampleFile(n, k), k)
  {
    ExampleHas(n, k);
    ExampleParses(ParseLine, n, k);
    EarlierWins([EARLY] + [LATE]);
    ComesDownTo(ParseLine, ExampleFile(n, k), k);
  }

  /** A recapture of a file of `n` lines interrupted after `k` of them is harmless, whatever the lines hold, if
      and only if it had not begun or was complete. */
  lemma InterruptedRecaptureIff(n: nat, k: nat)
    requires k <= n
    ensures (forall parse: Parser, file | |Lines(file)| == n && Sound(Stream(parse, file)) :: Survives(parse, file, k))
       <==> k == 0 || k == n
  {
    if k == 0 || k == n {
      forall parse: Parser, file | |Lines(file)| == n && Sound(Stream(parse, file)) ensures Survives(parse, file, k) {
        Harmless(parse, file, k);
      }
    } else {
      ExampleFails(n, k);
    }
  }

  lemma Harmless(parse: Parser, file: string, k: nat)
    requires Sound(Stream(parse, file)) && (k == 0 || k == |Lines(file)|)
    ensures Survives(parse, file, k)
  {
    SkipsAhead(parse, file, k);
    if k == 0 {
      ComesDownTo(parse, file, 0);
      assert Stream(parse, file) + [] == Stream(parse, file);
    } else {
      assert Lines(file)[..k] == Lines(file);
      TailingFoldsOnce(parse, Interrupted(file, k));
    }
  }
}
