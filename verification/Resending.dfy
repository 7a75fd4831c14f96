/** When sending events again is harmless, whatever they hold, and the runs in which it is not: the file store reads
    whole days, so a pass sends the settled beginning of its first day once more
    (internal/store/store.go:214-232 and internal/collect/forward.go:123-202). */
module Resending {
  import opened EndToEnd
  import opened Events
  import opened Fold
  import opened Forward
  import opened Shipping
  import opened Sightings
  import opened Slices
  import Collect
  import Replay
  import Sorting
  import TurnFacts

  // ---------------------------------------------------------------------------------------------
  // Events sent once, and those before an instant again
  // ---------------------------------------------------------------------------------------------

  function Older(cutoff: Instant): Event -> bool {
    (ev: Event) => ev.timestamp < cutoff
  }

  /** The places of a list of events before an instant. */
  function OldPlaces(shape: seq<Event>, cutoff: Instant): (ix: seq<nat>)
    ensures Places(ix, |shape|)
  {
    if shape == [] then []
    else
      OldPlaces(shape[..|shape| - 1], cutoff)
      + if shape[|shape| - 1].timestamp < cutoff then [|shape| - 1] else []
  }

  lemma {:induction false} OldPlacesHave(shape: seq<Event>, cutoff: Instant, i: nat)
    ensures i in OldPlaces(shape, cutoff) <==> i < |shape| && shape[i].timestamp < cutoff
    decreases |shape|
  {
    if shape != [] {
      OldPlacesHave(shape[..|shape| - 1], cutoff, i);
    }
  }

  predicate Ascends(ix: seq<nat>) {
    forall x, y :: 0 <= x < y < |ix| ==> ix[x] < ix[y]
  }

  lemma AscendsOneMore(ix: seq<nat>, n: nat)
    requires Ascends(ix) && Places(ix, n)
    ensures Ascends(ix + [n])
  {
  }

  lemma {:induction false} OldPlacesAscend(shape: seq<Event>, cutoff: Instant)
    ensures Ascends(OldPlaces(shape, cutoff))
  {
    if shape != [] {
      var n := |shape| - 1;
      OldPlacesAscend(shape[..n], cutoff);
      AscendsOneMore(OldPlaces(shape[..n], cutoff), n);
    }
  }

  lemma OldPlacesAre(shape: seq<Event>, cutoff: Instant)
    ensures forall i: nat :: i in OldPlaces(shape, cutoff) <==> i < |shape| && shape[i].timestamp < cutoff
    ensures Ascends(OldPlaces(shape, cutoff))
  {
    OldPlacesAscend(shape, cutoff);
    forall i: nat ensures i in OldPlaces(shape, cutoff) <==> i < |shape| && shape[i].timestamp < cutoff {
      OldPlacesHave(shape, cutoff, i);
    }
  }

  function UpTo(n: nat): (ix: seq<nat>)
    ensures |ix| == n && forall i :: 0 <= i < n ==> ix[i] == i
  {
    seq(n, i => i)
  }

  lemma PickConcat(es: seq<Event>, a: seq<nat>, b: seq<nat>)
    requires Places(a, |es|) && Places(b, |es|)
    ensures Places(a + b, |es|) && Pick(es, a + b) == Pick(es, a) + Pick(es, b)
  {
  }

  lemma {:induction false} PickOld(es: seq<Event>, shape: seq<Event>, cutoff: Instant)
    requires |es| == |shape| && forall i :: 0 <= i < |es| ==> es[i].timestamp == shape[i].timestamp
    ensures Pick(es, OldPlaces(shape, cutoff)) == Sorting.Filter(es, Older(cutoff))
    decreases |es|
  {
    if es != [] {
      var n := |es| - 1;
      PickOld(es[..n], shape[..n], cutoff);
      OldPlacesAre(shape[..n], cutoff);
      PickOfPrefix(es, n, OldPlaces(shape[..n], cutoff));
      if shape[n].timestamp < cutoff {
        PickConcat(es, OldPlaces(shape[..n], cutoff), [n]);
      }
    }
  }

  lemma PickOfPrefix(es: seq<Event>, n: nat, ix: seq<nat>)
    requires n <= |es| && Places(ix, n)
    ensures Places(ix, |es|) && Pick(es[..n], ix) == Pick(es, ix)
  {
  }

  /** All events once, and those before the instant again. */
  function Resent(shape: seq<Event>, cutoff: Instant): seq<nat> {
    UpTo(|shape|) + OldPlaces(shape, cutoff)
  }

  lemma ResentIs(es: seq<Event>, shape: seq<Event>, cutoff: Instant)
    requires Shaped(es, shape)
    ensures Places(Resent(shape, cutoff), |es|)
    ensures Pick(es, Resent(shape, cutoff)) == es + Sorting.Filter(es, Older(cutoff))
  {
    forall i | 0 <= i < |es| ensures es[i].timestamp == shape[i].timestamp {
      assert KeyOf(es[i]) == KeyOf(shape[i]);
    }
    PickOld(es, shape, cutoff);
    PickConcat(es, UpTo(|shape|), OldPlaces(shape, cutoff));
    assert Pick(es, UpTo(|es|)) == es;
  }

  lemma ResentInOrder(shape: seq<Event>, cutoff: Instant)
    ensures FirstInOrder(Resent(shape, cutoff), |shape|)
  {
    var n, ix := |shape|, Resent(shape, cutoff);
    forall x, i: nat | 0 <= x < |ix| && i < ix[x] ensures i in ix[..x] {
      assert ix[i] == i && i < x;
      assert ix[..x][i] == i;
    }
    forall i: nat | i < n ensures i in ix {
      assert ix[i] == i;
    }
  }

  /** With an event, all that come after it in its turn are before the instant. */
  predicate TailsOlder(shape: seq<Event>, cutoff: Instant) {
    forall i, j :: 0 <= i < j < |shape| && SameTurn(shape[i], shape[j]) && shape[i].timestamp < cutoff ==>
      shape[j].timestamp < cutoff
  }

  lemma OldPlaceIn(shape: seq<Event>, cutoff: Instant, i: nat) returns (y: nat)
    requires i < |shape| && shape[i].timestamp < cutoff
    ensures y < |OldPlaces(shape, cutoff)| && OldPlaces(shape, cutoff)[y] == i
  {
    OldPlacesAre(shape, cutoff);
    assert i in OldPlaces(shape, cutoff);
    y :| 0 <= y < |OldPlaces(shape, cutoff)| && OldPlaces(shape, cutoff)[y] == i;
  }

  lemma LaterOldPlace(shape: seq<Event>, cutoff: Instant, x: nat, j: nat)
    requires x < |OldPlaces(shape, cutoff)| && OldPlaces(shape, cutoff)[x] < j < |shape|
    requires shape[j].timestamp < cutoff
    ensures j in OldPlaces(shape, cutoff)[x + 1..]
  {
    var aged := OldPlaces(shape, cutoff);
    OldPlacesAre(shape, cutoff);
    var y := OldPlaceIn(shape, cutoff, j);
    assert aged[x + 1..][y - x - 1] == j;
  }

  lemma {:induction false} TailsNeverRevert(shape: seq<Event>, cutoff: Instant, x: nat, j: nat)
    requires TailsOlder(shape, cutoff) && x < |Resent(shape, cutoff)|
    requires Places(Resent(shape, cutoff), |shape|)
    requires Resent(shape, cutoff)[x] < j < |shape| && SameTurn(shape[Resent(shape, cutoff)[x]], shape[j])
    ensures j in Resent(shape, cutoff)[x + 1..]
  {
    var n, ix, aged := |shape|, Resent(shape, cutoff), OldPlaces(shape, cutoff);
    if x < n {
      assert ix[x + 1..][j - x - 1] == j;
    } else {
      OldPlacesAre(shape, cutoff);
      assert aged[x - n] in aged;
      LaterOldPlace(shape, cutoff, x - n, j);
      assert ix[x + 1..] == aged[x - n + 1..];
    }
  }

  lemma {:induction false} RevertsWithoutTails(shape: seq<Event>, cutoff: Instant, i: nat, j: nat)
    requires Places(Resent(shape, cutoff), |shape|) && NeverReverts(shape, Resent(shape, cutoff))
    requires i < j < |shape| && SameTurn(shape[i], shape[j]) && shape[i].timestamp < cutoff
    ensures shape[j].timestamp < cutoff
  {
    var n, ix, aged := |shape|, Resent(shape, cutoff), OldPlaces(shape, cutoff);
    OldPlacesAre(shape, cutoff);
    var y := OldPlaceIn(shape, cutoff, i);
    assert ix[n + y] == i;
    assert j in ix[n + y + 1..] && ix[n + y + 1..] == aged[y + 1..];
  }

  /** Sending again what lies before an instant is harmless, whatever the events hold, if and only if it takes, with
      every event, all that come after it in its turn. */
  lemma {:induction false} ResendingIff(shape: seq<Event>, cutoff: Instant)
    requires Apart(shape)
    ensures (forall es | Shaped(es, shape) ::
               FoldFrom(START, es + Sorting.Filter(es, Older(cutoff))) == FoldFrom(START, es))
       <==> TailsOlder(shape, cutoff)
  {
    var ix := Resent(shape, cutoff);
    ResentInOrder(shape, cutoff);
    SightingsIff(shape, ix);
    forall es | Shaped(es, shape) ensures Pick(es, ix) == es + Sorting.Filter(es, Older(cutoff)) {
      ResentIs(es, shape, cutoff);
    }
    if TailsOlder(shape, cutoff) {
      forall x, j: nat | 0 <= x < |ix| && ix[x] < j < |shape| && SameTurn(shape[ix[x]], shape[j])
        ensures j in ix[x + 1..]
      {
        TailsNeverRevert(shape, cutoff, x, j);
      }
    }
    if NeverReverts(shape, ix) {
      forall i, j | 0 <= i < j < |shape| && SameTurn(shape[i], shape[j]) && shape[i].timestamp < cutoff
        ensures shape[j].timestamp < cutoff
      {
        RevertsWithoutTails(shape, cutoff, i, j);
      }
    }
  }

  /** In time order that is none or all of each turn. */
  lemma TailsInTimeOrderIff(shape: seq<Event>, cutoff: Instant)
    requires forall i, j :: 0 <= i < j < |shape| && SameTurn(shape[i], shape[j]) ==>
               shape[i].timestamp <= shape[j].timestamp
    ensures TailsOlder(shape, cutoff) <==>
            forall i, j :: 0 <= i < j < |shape| && SameTurn(shape[i], shape[j]) ==>
              (shape[i].timestamp < cutoff <==> shape[j].timestamp < cutoff)
  {
  }

  // ---------------------------------------------------------------------------------------------
  // A replay that is recorded half-way
  // ---------------------------------------------------------------------------------------------

  function FromPlace(r: nat, n: nat): (ix: seq<nat>)
    requires r <= n
    ensures |ix| == n - r && forall y :: 0 <= y < n - r ==> ix[y] == r + y
  {
    seq(n - r, y requires 0 <= y < n - r => r + y)
  }

  lemma {:induction false} HalfReplayInOrder(ix: seq<nat>, r: nat, n: nat)
    requires FirstInOrder(ix, r) && r <= n
    ensures FirstInOrder(ix + FromPlace(r, n), n)
  {
    var all := ix + FromPlace(r, n);
    forall x, i: nat | 0 <= x < |all| && i < all[x] ensures i in all[..x] {
      if x < |ix| {
        assert all[..x] == ix[..x];
      } else if i < r {
        assert i in ix && all[..x] == ix + FromPlace(r, n)[..x - |ix|];
      } else {
        assert all[..x][|ix| + i - r] == i;
      }
    }
    forall i: nat | i < n ensures i in all {
      if i >= r {
        assert all[|ix| + i - r] == i;
      }
    }
  }

  lemma {:induction false} HalfReplayReverts(shape: seq<Event>, ix: seq<nat>, r: nat)
    requires FirstInOrder(ix, r) && r <= |shape|
    ensures Places(ix + FromPlace(r, |shape|), |shape|)
    ensures NeverReverts(shape, ix + FromPlace(r, |shape|)) <==> NeverReverts(shape[..r], ix)
  {
    var n, rest := |shape|, FromPlace(r, |shape|);
    var all := ix + rest;
    if NeverReverts(shape, all) {
      forall x, j: nat | 0 <= x < |ix| && ix[x] < j < r && SameTurn(shape[..r][ix[x]], shape[..r][j])
        ensures j in ix[x + 1..]
      {
        assert all[x] == ix[x] && j in all[x + 1..] && all[x + 1..] == ix[x + 1..] + rest;
      }
    }
    if NeverReverts(shape[..r], ix) {
      forall x, j: nat | 0 <= x < |all| && all[x] < j < n && SameTurn(shape[all[x]], shape[j])
        ensures j in all[x + 1..]
      {
        if j >= r {
          assert all[x + 1..][|ix| + j - r - x - 1] == j;
        } else {
          assert all[x + 1..] == ix[x + 1..] + rest;
          assert shape[..r][j] == shape[j] && shape[..r][ix[x]] == shape[all[x]];
        }
      }
    }
  }

  /** A server that was sent a log of replays, recorded, and then only what was not in it: it has the events as they
      are, whatever they hold, if and only if the log it was sent was in the middle of no turn's replay. */
  lemma {:induction false} RecordedReplayIff(shape: seq<Event>, ix: seq<nat>, r: nat)
    requires Apart(shape) && r <= |shape| && FirstInOrder(ix, r)
    ensures (forall es | Shaped(es, shape) :: FoldFrom(START, Pick(es[..r], ix) + es[r..]) == FoldFrom(START, es))
       <==> NeverReverts(shape[..r], ix)
  {
    var all := ix + FromPlace(r, |shape|);
    HalfReplayInOrder(ix, r, |shape|);
    HalfReplayReverts(shape, ix, r);
    SightingsIff(shape, all);
    forall es | Shaped(es, shape) ensures Pick(es, all) == Pick(es[..r], ix) + es[r..] {
      HalfReplayIs(es, ix, r);
    }
  }

  lemma {:induction false} HalfReplayIs(es: seq<Event>, ix: seq<nat>, r: nat)
    requires r <= |es| && Places(ix, r)
    ensures Places(ix + FromPlace(r, |es|), |es|)
    ensures Pick(es, ix + FromPlace(r, |es|)) == Pick(es[..r], ix) + es[r..]
  {
    PickConcat(es, ix, FromPlace(r, |es|));
    PickOfPrefix(es, r, ix);
    assert Pick(es, FromPlace(r, |es|)) == es[r..];
  }
}
