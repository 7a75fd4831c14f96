/** Rules by which a stream of events decides a value: the last that says something, the first that says something,
    or any. */
module Said {

  predicate Any<E>(es: seq<E>, says: E -> bool) {
    exists i :: 0 <= i < |es| && says(es[i])
  }

  /** What the last that says something says, or `was` if none does. */
  function LastOf<E, T>(es: seq<E>, says: E -> bool, what: E -> T, was: T): T {
    if es == [] then was
    else if says(es[|es| - 1]) then what(es[|es| - 1])
    else LastOf(es[..|es| - 1], says, what, was)
  }

  /** What the first that says something says, or `was` if none does. */
  function FirstOf<E, T>(es: seq<E>, says: E -> bool, what: E -> T, was: T): T {
    if es == [] then was
    else if says(es[0]) then what(es[0])
    else FirstOf(es[1..], says, what, was)
  }

  /** What comes after the last that says something: all of it if none does. */
  function AfterLast<E>(es: seq<E>, says: E -> bool): seq<E> {
    if es == [] || says(es[|es| - 1]) then [] else AfterLast(es[..|es| - 1], says) + [es[|es| - 1]]
  }

  /** The last one, wherever it stands, decides. */
  lemma {:induction false} LastDecides<E, T>(es: seq<E>, says: E -> bool, what: E -> T, was: T, i: nat)
    requires i < |es| && says(es[i]) && forall j :: i < j < |es| ==> !says(es[j])
    ensures LastOf(es, says, what, was) == what(es[i])
    ensures AfterLast(es, says) == es[i + 1..]
  {
    if i < |es| - 1 {
      LastDecides(es[..|es| - 1], says, what, was, i);
    }
  }

  lemma {:induction false} FirstDecides<E, T>(es: seq<E>, says: E -> bool, what: E -> T, was: T, i: nat)
    requires i < |es| && says(es[i]) && forall j :: 0 <= j < i ==> !says(es[j])
    ensures FirstOf(es, says, what, was) == what(es[i])
  {
    if i > 0 {
      FirstDecides(es[1..], says, what, was, i - 1);
    }
  }

  lemma {:induction false} NoneIsLast<E, T>(es: seq<E>, says: E -> bool, what: E -> T, was: T)
    requires !Any(es, says)
    ensures LastOf(es, says, what, was) == was && AfterLast(es, says) == es
  {
    if es != [] {
      assert !says(es[|es| - 1]);
      assert forall i :: 0 <= i < |es| - 1 ==> es[..|es| - 1][i] == es[i];
      NoneIsLast(es[..|es| - 1], says, what, was);
    }
  }

  lemma {:induction false} NoneIsFirst<E, T>(es: seq<E>, says: E -> bool, what: E -> T, was: T)
    requires !Any(es, says)
    ensures FirstOf(es, says, what, was) == was
  {
    if es != [] {
      assert !says(es[0]);
      assert forall i :: 0 <= i < |es| - 1 ==> es[1..][i] == es[i + 1];
      NoneIsFirst(es[1..], says, what, was);
    }
  }

  lemma {:induction false} FirstOfSnoc<E, T>(es: seq<E>, e: E, says: E -> bool, what: E -> T, was: T)
    requires forall x :: says(x) ==> what(x) != was
    ensures FirstOf(es + [e], says, what, was)
         == if FirstOf(es, says, what, was) == was && says(e) then what(e) else FirstOf(es, says, what, was)
  {
    if es == [] {
      assert es + [e] == [e];
    } else {
      assert (es + [e])[1..] == es[1..] + [e];
      FirstOfSnoc(es[1..], e, says, what, was);
    }
  }

  lemma AnySnoc<E>(es: seq<E>, e: E, says: E -> bool)
    ensures Any(es + [e], says) <==> Any(es, says) || says(e)
  {
    assert (es + [e])[|es|] == e;
    if i :| 0 <= i < |es| && says(es[i]) {
      assert (es + [e])[i] == es[i];
    }
  }
}
