/** Receiving and sending batches (internal/collect/server.go and client.go). */
module Collect {
  import opened Events
  import Environment

  datatype Counts = Counts(accepted: nat, rejected: nat)

  datatype Status = OK | BadRequest | Unauthorized | EntityTooLarge | ServerError

  /** What the shipper makes of one request. */
  datatype Outcome = Delivered(counts: Counts) | CredentialRejected | BatchTooLarge | Failed

  const MAX_BATCH_EVENTS := 20_000
  const DEFAULT_BATCH_SIZE := 2_000
  const PLAUSIBLE_PAST := 5 * 365 * 86_400_000
  const PLAUSIBLE_FUTURE := 86_400_000

  predicate Plausible(ev: Event, now: Instant) {
    ev.timestamp != ZERO_TIME && now - PLAUSIBLE_PAST <= ev.timestamp <= now + PLAUSIBLE_FUTURE
  }

  /** What a batch leaves in the server's log: the plausible events, in order, under the identity of the
      credential whatever identity they claimed. */
  function Landed(batch: seq<Event>, now: Instant, stamp: Identity): (log: seq<Event>)
    ensures |log| <= |batch|
  {
    if batch == [] then []
    else
      var ev := batch[|batch| - 1];
      Landed(batch[..|batch| - 1], now, stamp) + if Plausible(ev, now) then [ev.(identity := stamp)] else []
  }

  lemma {:induction false} LandedConcat(a: seq<Event>, b: seq<Event>, now: Instant, stamp: Identity)
    ensures Landed(a + b, now, stamp) == Landed(a, now, stamp) + Landed(b, now, stamp)
    decreases |b|
  {
    if b == [] {
      assert a + b == a;
    } else {
      assert (a + b)[..|a + b| - 1] == a + b[..|b| - 1];
      LandedConcat(a, b[..|b| - 1], now, stamp);
    }
  }

  /** Nothing lands that was not sent and plausible, nothing plausible is dropped, and every landed event
      carries exactly the credential's identity. */
  lemma {:induction false} LandedContents(batch: seq<Event>, now: Instant, stamp: Identity, ev: Event)
    ensures ev in Landed(batch, now, stamp) ==>
              && ev.identity == stamp
              && (exists sent :: sent in batch && Plausible(sent, now) && ev == sent.(identity := stamp))
    ensures ev in batch && Plausible(ev, now) ==> ev.(identity := stamp) in Landed(batch, now, stamp)
  {
    if batch != [] {
      LandedContents(batch[..|batch| - 1], now, stamp, ev);
      var last := batch[|batch| - 1];
      assert last in batch;
    }
  }

  /** Whatever else it holds, a dated event lands that is of one of the 1825 days up to the server's. */
  lemma RecentLands(batch: seq<Event>, now: Instant, stamp: Identity, ev: Event)
    requires ev in batch && ev.timestamp != ZERO_TIME && DayOf(now) - 1825 < DayOf(ev.timestamp) <= DayOf(now)
    ensures ev.(identity := stamp) in Landed(batch, now, stamp)
  {
    LandedContents(batch, now, stamp, ev);
  }

  /** To the millisecond: what lands of a batch is what is dated, no more than 1825 days back and no more than one
      ahead, under the credential's identity. */
  lemma LandsIff(batch: seq<Event>, now: Instant, stamp: Identity, ev: Event)
    ensures ev in Landed(batch, now, stamp) <==>
              && ev.timestamp != ZERO_TIME && StartOf(-1825) <= ev.timestamp - now <= StartOf(1) && ev.identity == stamp
              && exists sent :: sent in batch && ev == sent.(identity := stamp)
  {
    LandedContents(batch, now, stamp, ev);
    if sent :| sent in batch && ev == sent.(identity := stamp) {
      LandedContents(batch, now, stamp, sent);
    }
  }

  /** One tenant's ingest endpoint. `steady` says that nothing outside goes wrong during a call: credentials
      hold, bodies decode and are not too long, and neither network nor storage fails. */
  class Endpoint {
    var log: seq<Event>
    const stamp: Identity

    constructor (stamp: Identity)
      ensures log == [] && this.stamp == stamp
    {
      this.stamp := stamp;
      log := [];
    }

    method HandleCollect(batch: seq<Event>, now: Instant, steady: bool) returns (status: Status, res: Counts)
      modifies this
      ensures status == OK ==> log == old(log) + Landed(batch, now, stamp)
      ensures status == OK ==> res == Counts(|Landed(batch, now, stamp)|, |batch| - |Landed(batch, now, stamp)|)
      ensures status == ServerError ==>
        exists n: nat :: n <= |batch| && log == old(log) + Landed(batch[..n], now, stamp)
                         && res.accepted == |Landed(batch[..n], now, stamp)|
      ensures status != OK && status != ServerError ==> log == old(log) && res == Counts(0, 0)
      ensures |batch| > 20_000 ==> status != OK
      ensures steady ==> status == if |batch| > 20_000 then EntityTooLarge else OK
    {
      res := Counts(0, 0);
      assert old(log) == old(log) + Landed(batch[..0], now, stamp);
      var failed := Environment.Fails(steady);
      if failed {
        return Unauthorized, res;
      }
      failed := Environment.Fails(steady);
      if failed {
        return BadRequest, res;
      }
      failed := Environment.Fails(steady);
      if failed {
        // the decompressed body is over the byte limit
        return EntityTooLarge, res;
      }
      if |batch| > MAX_BATCH_EVENTS {
        return EntityTooLarge, res;
      }
      failed := Environment.Fails(steady);
      if failed {
        // the tenant's storage does not open
        return ServerError, res;
      }
      for i := 0 to |batch|
        invariant log == old(log) + Landed(batch[..i], now, stamp)
        invariant res == Counts(|Landed(batch[..i], now, stamp)|, i - |Landed(batch[..i], now, stamp)|)
      {
        var ev := batch[i];
        assert batch[..i + 1][..i] == batch[..i];
        if !Plausible(ev, now) {
          res := res.(rejected := res.rejected + 1);
        } else {
          ev := ev.(identity := stamp);
          failed := Environment.Fails(steady);
          if failed {
            return ServerError, res;
          }
          log := log + [ev];
          res := res.(accepted := res.accepted + 1);
        }
      }
      assert batch[..|batch|] == batch;
      return OK, res;
    }
  }

  function Log2(n: nat): nat {
    if n < 2 then 0 else 1 + Log2(n / 2)
  }

  lemma {:induction false} Log2Monotone(m: nat, n: nat)
    requires m <= n
    ensures Log2(m) <= Log2(n)
    decreases n
  {
    if m >= 2 {
      Log2Monotone(m / 2, n / 2);
    }
  }

  /** How many batches of a size some events make. */
  function Batches(n: nat, size: nat): nat
    requires size >= 1
  {
    if n == 0 then 0 else if n <= size then 1 else 1 + Batches(n - size, size)
  }

  /** What is left to ship, and the size of the batches it goes out in. */
  datatype Course = Course(left: nat, size: nat) {
    function Next(): nat { if size < left then size else left }

    /** The answer to the next request lets the shipping go on. */
    predicate GoesOn(answer: Outcome) { left > 0 && (answer.Delivered? || (answer == BatchTooLarge && Next() > 1)) }

    function On(answer: Outcome): Course {
      if !GoesOn(answer) then this
      else if answer.Delivered? then Course(left - Next(), size)
      else Course(left, Next() / 2)
    }
  }

  /** Where a shipping has got to after these answers. */
  function Got(start: Course, answers: seq<Outcome>): Course {
    if answers == [] then start else Got(start, answers[..|answers| - 1]).On(answers[|answers| - 1])
  }

  /** Every answer let it go on. */
  predicate WentOn(start: Course, answers: seq<Outcome>) {
    answers == [] || (
      && WentOn(start, answers[..|answers| - 1])
      && Got(start, answers[..|answers| - 1]).GoesOn(answers[|answers| - 1]))
  }

  predicate Underway(start: Course, answers: seq<Outcome>, left: nat, size: nat) {
    WentOn(start, answers) && Got(start, answers) == Course(left, size)
  }

  /** A shipping ends when nothing is left, with the first answer that does not let it go on, or when it is cancelled
      between two requests. */
  predicate EndedBy(start: Course, answers: seq<Outcome>, failure: Option<Outcome>) {
    match failure
    case None => WentOn(start, answers) && Got(start, answers).left == 0
    case Some(outcome) =>
      || (outcome == Failed && WentOn(start, answers) && Got(start, answers).left > 0)
      || (&& answers != [] && outcome == answers[|answers| - 1] && WentOn(start, answers[..|answers| - 1])
          && var last := Got(start, answers[..|answers| - 1]);
             last.left > 0 && !last.GoesOn(outcome))
  }

  lemma {:induction false} Answered(start: Course, answers: seq<Outcome>, left: nat, size: nat, n: nat, answer: Outcome)
    requires Underway(start, answers, left, size) && left > 0 && n == if size < left then size else left
    ensures answer.Delivered? ==> Underway(start, answers + [answer], left - n, size)
    ensures answer == BatchTooLarge && n > 1 ==> Underway(start, answers + [answer], left, n / 2)
    ensures !answer.Delivered? && (answer != BatchTooLarge || n <= 1) ==>
              EndedBy(start, answers + [answer], Some(answer))
  {
    assert (answers + [answer])[..|answers|] == answers;
  }

  /** With one more answer, or none if it was cancelled before the request. */
  function Heard(answers: seq<Outcome>, answer: Option<Outcome>): seq<Outcome> {
    if answer.Some? then answers + [answer.value] else answers
  }

  lemma {:induction false} AfterOneRound(start: Course, answers: seq<Outcome>, left: nat, size: nat, n: nat,
          answer: Option<Outcome>)
    requires Underway(start, answers, left, size) && left > 0
    requires answer.Some? ==> n == if size < left then size else left
    ensures var now := Heard(answers, answer);
            match answer
            case None => EndedBy(start, now, Some(Failed))
            case Some(a) =>
              if a.Delivered? then Underway(start, now, left - n, size)
              else if a == BatchTooLarge && n > 1 then Underway(start, now, left, n / 2)
              else EndedBy(start, now, answer)
  {
    if answer.Some? {
      Answered(start, answers, left, size, n, answer.value);
    } else {
      OverOrCancelled(start, answers, left, size);
    }
  }

  lemma {:induction false} OverOrCancelled(start: Course, answers: seq<Outcome>, left: nat, size: nat)
    requires Underway(start, answers, left, size)
    ensures EndedBy(start, answers, if left == 0 then None else Some(Failed))
  {
  }

  predicate AllDelivered(answers: seq<Outcome>) {
    forall answer :: answer in answers ==> answer.Delivered?
  }

  /** If nothing goes wrong there are as many requests as batches. */
  lemma {:induction false} OneRequestABatch(start: Course, answers: seq<Outcome>)
    requires WentOn(start, answers) && AllDelivered(answers) && start.size >= 1
    ensures Got(start, answers).size == start.size
    ensures |answers| + Batches(Got(start, answers).left, start.size) == Batches(start.left, start.size)
  {
    if answers != [] {
      OneRequestABatch(start, answers[..|answers| - 1]);
    }
  }

  function Refusals(answers: seq<Outcome>): nat {
    if answers == [] then 0
    else Refusals(answers[..|answers| - 1]) + if answers[|answers| - 1] == BatchTooLarge then 1 else 0
  }

  lemma {:induction false} RefusalsHalve(start: Course, answers: seq<Outcome>)
    requires WentOn(start, answers) && start.size >= 1
    ensures Got(start, answers).size >= 1
    ensures Refusals(answers) + Log2(Got(start, answers).size) <= Log2(start.size)
  {
    if answers != [] {
      var before := Got(start, answers[..|answers| - 1]);
      RefusalsHalve(start, answers[..|answers| - 1]);
      Log2Monotone(before.Next() / 2, before.size / 2);
    }
  }

  /** A shipping comes through, or to its last answer, with no more refusals than the first size can be halved. */
  lemma RefusedAtMost(start: Course, answers: seq<Outcome>, failure: Option<Outcome>)
    requires EndedBy(start, answers, failure) && start.size >= 1
    ensures Refusals(answers) <= Log2(start.size) + if failure == Some(BatchTooLarge) then 1 else 0
  {
    if WentOn(start, answers) {
      RefusalsHalve(start, answers);
    } else {
      RefusalsHalve(start, answers[..|answers| - 1]);
    }
  }

  class Shipper {
    const batchSize: int

    constructor (batchSize: int)
      ensures this.batchSize == batchSize
    {
      this.batchSize := batchSize;
    }

    /** One request. Only a decoded success reports delivery; after a failure any accepted prefix of the
        batch may have landed, and after a refusal none has. */
    method Send(server: Endpoint, batch: seq<Event>, now: Instant, steady: bool)
      returns (outcome: Outcome, ghost status: Option<Status>)
      modifies server
      ensures match status
              case None => outcome == if batch == [] then Delivered(Counts(0, 0)) else Failed
              case Some(OK) => outcome.Delivered? || outcome == Failed
              case Some(Unauthorized) => outcome == CredentialRejected
              case Some(EntityTooLarge) => outcome == BatchTooLarge
              case Some(_) => outcome == Failed
      ensures steady ==> outcome.Delivered? || (outcome == BatchTooLarge && |batch| > MAX_BATCH_EVENTS)
      ensures outcome.Delivered? ==>
        && server.log == old(server.log) + Landed(batch, now, server.stamp)
        && outcome.counts.accepted == |Landed(batch, now, server.stamp)|
        && outcome.counts.accepted + outcome.counts.rejected == |batch|
      ensures outcome == BatchTooLarge || outcome == CredentialRejected ==> server.log == old(server.log)
      ensures outcome == Failed ==>
        exists n: nat :: n <= |batch| && server.log == old(server.log) + Landed(batch[..n], now, server.stamp)
    {
      assert old(server.log) == old(server.log) + Landed(batch[..0], now, server.stamp);
      if |batch| == 0 {
        return Delivered(Counts(0, 0)), None;
      }
      var failed := Environment.Fails(steady);
      if failed {
        // the request never arrived
        return Failed, None;
      }
      var answered, res := server.HandleCollect(batch, now, steady);
      status := Some(answered);
      match answered {
        case OK =>
          failed := Environment.Fails(steady);
          if failed {
            // the answer did not arrive or did not decode
            assert batch[..|batch|] == batch;
            return Failed, status;
          }
          return Delivered(res), status;
        case Unauthorized => return CredentialRejected, status;
        case EntityTooLarge => return BatchTooLarge, status;
        case ServerError => return Failed, status;
        case BadRequest => return Failed, status;
      }
    }

    /** One batch out of the middle of an input whose first `settled` events have already landed. */
    method SendSlice(server: Endpoint, batch: seq<Event>, now: Instant, steady: bool, total: Counts,
            ghost base: seq<Event>, ghost input: seq<Event>, ghost settled: nat, ghost next: nat)
      returns (outcome: Outcome, sum: Counts)
      requires settled <= next <= |input| && batch == input[settled..next]
      requires Counted(server, base, input, now, settled, total)
      modifies server
      ensures steady ==> outcome.Delivered? || (outcome == BatchTooLarge && |batch| > MAX_BATCH_EVENTS)
      ensures outcome.Delivered? ==> Counted(server, base, input, now, next, sum)
      ensures !outcome.Delivered? ==> sum == total
      ensures outcome == BatchTooLarge || outcome == CredentialRejected ==>
          Counted(server, base, input, now, settled, total)
      ensures outcome == Failed ==> exists m: nat :: settled <= m <= next && Holds(server, base, input, now, m)
    {
      sum := total;
      ghost var status;
      outcome, status := Send(server, batch, now, steady);
      if outcome.Delivered? {
        Extends(base, old(server.log), input, settled, next, now, server.stamp);
        sum := Counts(total.accepted + outcome.counts.accepted, total.rejected + outcome.counts.rejected);
      } else if outcome == Failed {
        ghost var m: nat :|
          m <= |batch| && server.log == old(server.log) + Landed(batch[..m], now, server.stamp);
        PartLands(base, old(server.log), server.log, input, settled, next, m, now, server.stamp);
        assert Holds(server, base, input, now, settled + m);
      }
    }

    /** One round: the next batch goes out, or is halved because it was refused, or the shipping ends. */
    method SendNext(server: Endpoint, events: seq<Event>, size: nat, now: Instant, steady: bool, total: Counts,
            ghost base: seq<Event>, ghost input: seq<Event>, ghost settled: nat)
      returns (failure: Option<Outcome>, sum: Counts, rest: seq<Event>, next: nat, n: nat,
              ghost answer: Option<Outcome>)
      requires events != [] && settled <= |input| && events == input[settled..] && size >= 1
      requires Counted(server, base, input, now, settled, total)
      modifies server
      ensures steady ==> failure.None?
      ensures steady && size <= 20_000 ==> n == (if size < |events| then size else |events|) && rest == events[n..]
      ensures steady && size <= 20_000 ==> next == size
      ensures answer.None? ==> failure == Some(Failed)
      ensures answer.Some? ==>
        && n == (if size < |events| then size else |events|)
        && if answer.value.Delivered? then
             && failure.None? && next == size && n >= 1 && settled + n <= |input| && rest == events[n..]
             && rest == input[settled + n..] && Counted(server, base, input, now, settled + n, sum)
           else if answer.value == BatchTooLarge && n > 1 then
             && failure.None? && next == n / 2 && rest == events && sum == total
             && Counted(server, base, input, now, settled, sum)
           else failure == answer
      ensures failure.Some? ==> sum == total && Ended(server, base, input, now, settled, failure.value, n)
    {
      n, next, sum, rest, answer := 0, size, total, events, None;
      var failed := Environment.Fails(steady);
      if failed {
        // the context was cancelled
        assert Holds(server, base, input, now, settled);
        return Some(Failed), sum, rest, next, n, None;
      }
      n := if size < |events| then size else |events|;
      NextBatch(input, settled, n);
      var outcome, more := SendSlice(server, events[..n], now, steady, total, base, input, settled, settled + n);
      answer := Some(outcome);
      if outcome == BatchTooLarge && n > 1 {
        return None, sum, rest, n / 2, n, answer;
      } else if !outcome.Delivered? {
        return Some(outcome), sum, rest, next, n, answer;
      }
      return None, more, events[n..], next, n, answer;
    }

    /** One round of the loop, with what is kept about it. */
    method SendRound(server: Endpoint, events: seq<Event>, size: nat, now: Instant, steady: bool, total: Counts,
            ghost base: seq<Event>, ghost input: seq<Event>, ghost settled: nat, ghost start: Course,
            ghost answers: seq<Outcome>)
      returns (failure: Option<Outcome>, sum: Counts, rest: seq<Event>, next: nat, ghost done: nat, ghost n: nat,
              ghost heard: seq<Outcome>)
      requires events != [] && settled <= |input| && events == input[settled..] && size >= 1
      requires Counted(server, base, input, now, settled, total) && Underway(start, answers, |events|, size)
      modifies server
      ensures steady ==> failure.None?
      ensures steady && size <= 20_000 ==> next == size && (AllDelivered(answers) ==> AllDelivered(heard))
      ensures failure.Some? ==>
        && sum == total && done == settled && EndedBy(start, heard, failure)
        && Ended(server, base, input, now, settled, failure.value, n)
      ensures failure.None? ==>
        && done <= |input| && rest == input[done..] && next >= 1
        && (|rest| < |events| || (rest == events && next < size))
        && Counted(server, base, input, now, done, sum) && Underway(start, heard, |rest|, next)
    {
      ghost var answer;
      failure, sum, rest, next, n, answer := SendNext(server, events, size, now, steady, total, base, input, settled);
      AfterOneRound(start, answers, |events|, size, n, answer);
      heard, done := Heard(answers, answer), settled;
      if answer.Some? && answer.value.Delivered? {
        done := settled + n;
      }
    }

    /** The loop: `was` is what the log held, `size` the batch size to start with. */
    method SendRounds(server: Endpoint, input: seq<Event>, first: nat, now: Instant, steady: bool,
            ghost was: seq<Event>)
      returns (total: Counts, failure: Option<Outcome>, ghost settled: nat, ghost last: nat,
              ghost answers: seq<Outcome>)
      requires first >= 1 && was == server.log
      modifies server
      ensures steady ==> failure.None?
      ensures steady && first <= 20_000 ==> AllDelivered(answers)
      ensures EndedBy(Course(|input|, first), answers, failure)
      ensures settled <= |input| && Tally(server.stamp, input, now, settled, total)
      ensures failure.None? ==> settled == |input| && Holds(server, was, input, now, settled)
      ensures failure.Some? ==> settled < |input| && Ended(server, was, input, now, settled, failure.value, last)
    {
      total, failure, settled, last, answers := Counts(0, 0), None, 0, 0, [];
      ghost var start := Course(|input|, first);
      var size, events := first, input;
      assert input[0..] == input && was + [] == was;
      while |events| > 0
        invariant settled <= |input| && events == input[settled..] && failure.None?
        invariant Counted(server, was, input, now, settled, total)
        invariant size >= 1 && Underway(start, answers, |events|, size)
        invariant steady && first <= 20_000 ==> size == first && AllDelivered(answers)
        decreases |events|, size
      {
        failure, total, events, size, settled, last, answers :=
          SendRound(server, events, size, now, steady, total, was, input, settled, start, answers);
        if failure.Some? {
          return;
        }
      }
      OverOrCancelled(start, answers, 0, size);
    }

    /** Ships everything in batches, halving a refused one. `settled` is how much of the input went out in
        acknowledged requests, `last` the size of the last batch, `answers` what the requests were answered. */
    method SendAll(server: Endpoint, input: seq<Event>, now: Instant, steady: bool)
      returns (total: Counts, failure: Option<Outcome>, ghost settled: nat, ghost last: nat,
              ghost answers: seq<Outcome>)
      modifies server
      ensures EndedBy(Course(|input|, if batchSize <= 0 then 2_000 else batchSize), answers, failure)
      ensures steady ==> failure.None?
      ensures steady && batchSize <= 0 ==> |answers| == Batches(|input|, 2_000)
      ensures steady && 0 < batchSize <= 20_000 ==> |answers| == Batches(|input|, batchSize)
      ensures settled <= |input|
      ensures total.accepted == |Landed(input[..settled], now, server.stamp)|
      ensures total.accepted + total.rejected == settled
      ensures failure.None? ==> settled == |input| && Holds(server, old(server.log), input, now, |input|)
      ensures failure.Some? ==>
        exists n: nat :: settled <= n <= |input| && Holds(server, old(server.log), input, now, n)
      ensures failure == Some(BatchTooLarge) ==>
        last == 1 && settled < |input| && Holds(server, old(server.log), input, now, settled)
    {
      var size := if batchSize <= 0 then DEFAULT_BATCH_SIZE else batchSize;
      total, failure, settled, last, answers := SendRounds(server, input, size, now, steady, server.log);
      if steady && size <= 20_000 {
        OneRequestABatch(Course(|input|, size), answers);
      }
    }
  }

  /** The next batch, and what is left after it. */
  lemma NextBatch<T>(xs: seq<T>, a: nat, n: nat)
    requires a + n <= |xs|
    ensures xs[a..][..n] == xs[a..a + n] && xs[a..][n..] == xs[a + n..]
  {
  }

  lemma FirstOfSlice<T>(xs: seq<T>, a: nat, b: nat, m: nat)
    requires a + m <= b <= |xs|
    ensures xs[a..b][..m] == xs[a..a + m]
  {
  }

  /** The server's log is what it was plus what the first `n` events leave. */
  ghost predicate Holds(server: Endpoint, base: seq<Event>, input: seq<Event>, now: Instant, n: nat)
    requires n <= |input|
    reads server
  {
    server.log == base + Landed(input[..n], now, server.stamp)
  }

  /** How shipping can end: some of the input after what was acknowledged may have landed as well, none if a
      single event was refused. */
  ghost predicate Ended(server: Endpoint, base: seq<Event>, input: seq<Event>, now: Instant, settled: nat,
          outcome: Outcome, last: nat)
    requires settled < |input|
    reads server
  {
    && (exists n: nat :: settled <= n <= |input| && Holds(server, base, input, now, n))
    && (outcome == BatchTooLarge ==> last == 1 && Holds(server, base, input, now, settled))
  }

  predicate Tally(stamp: Identity, input: seq<Event>, now: Instant, n: nat, total: Counts)
    requires n <= |input|
  {
    total == Counts(|Landed(input[..n], now, stamp)|, n - |Landed(input[..n], now, stamp)|)
  }

  /** And the counts so far are right about those events. */
  ghost predicate Counted(server: Endpoint, base: seq<Event>, input: seq<Event>, now: Instant, n: nat, total: Counts)
    requires n <= |input|
    reads server
  {
    Holds(server, base, input, now, n) && Tally(server.stamp, input, now, n, total)
  }

  lemma Extends(base: seq<Event>, log: seq<Event>, input: seq<Event>, settled: nat, next: nat, now: Instant,
          stamp: Identity)
    requires settled <= next <= |input|
    requires log == base + Landed(input[..settled], now, stamp)
    ensures Landed(input[..next], now, stamp)
         == Landed(input[..settled], now, stamp) + Landed(input[settled..next], now, stamp)
    ensures log + Landed(input[settled..next], now, stamp) == base + Landed(input[..next], now, stamp)
  {
    LandedConcat(input[..settled], input[settled..next], now, stamp);
    assert input[..settled] + input[settled..next] == input[..next];
  }

  lemma PartLands(base: seq<Event>, was: seq<Event>, log: seq<Event>, input: seq<Event>, settled: nat, next: nat,
          m: nat, now: Instant, stamp: Identity)
    requires settled + m <= next <= |input|
    requires was == base + Landed(input[..settled], now, stamp)
    requires log == was + Landed(input[settled..next][..m], now, stamp)
    ensures log == base + Landed(input[..settled + m], now, stamp)
  {
    FirstOfSlice(input, settled, next, m);
    Extends(base, was, input, settled, settled + m, now, stamp);
  }
}
