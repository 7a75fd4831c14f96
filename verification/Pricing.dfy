/** List prices (internal/pricing/pricing.go), in exact units of one twentieth of a micro-dollar: at a
    rate of `r` dollars per million tokens one token costs 20*r of them. */
module Pricing {
  import opened Events

  datatype Rate = Rate(input: int, output: int)

  const KEYS := 9

  /** The priced models, longest name first. */
  function Key(i: nat): string
    requires i < KEYS
  {
    match i
    case 0 => "claude-sonnet-4-6"
    case 1 => "claude-haiku-4-5"
    case 2 => "claude-mythos-5"
    case 3 => "claude-opus-4-8"
    case 4 => "claude-opus-4-7"
    case 5 => "claude-opus-4-6"
    case 6 => "claude-sonnet-5"
    case 7 => "claude-fable-5"
    case _ => "claude-opus-5"
  }

  /** Dollars per million tokens. */
  function RateAt(i: nat): Rate
    requires i < KEYS
  {
    match i
    case 0 => Rate(3, 15)
    case 1 => Rate(1, 5)
    case 2 => Rate(10, 50)
    case 3 => Rate(5, 25)
    case 4 => Rate(5, 25)
    case 5 => Rate(5, 25)
    case 6 => Rate(2, 10)
    case 7 => Rate(10, 50)
    case _ => Rate(5, 25)
  }

  /** The first key from `i` on that is the model's name, or KEYS. */
  function Exact(model: string, i: nat): (j: nat)
    requires i <= KEYS
    ensures i <= j <= KEYS
    decreases KEYS - i
  {
    if i == KEYS || Key(i) == model then i else Exact(model, i + 1)
  }

  /** The first key from `i` on that the model's name starts with, or KEYS. */
  function Prefix(model: string, i: nat): (j: nat)
    requires i <= KEYS
    ensures i <= j <= KEYS
    decreases KEYS - i
  {
    if i == KEYS || Key(i) <= model then i else Prefix(model, i + 1)
  }

  function Lookup(model: string): Option<Rate> {
    if Exact(model, 0) < KEYS then Some(RateAt(Exact(model, 0)))
    else if Prefix(model, 0) < KEYS then Some(RateAt(Prefix(model, 0)))
    else None
  }

  lemma {:induction false} PrefixIsFirst(model: string, i: nat)
    requires i <= KEYS
    ensures var j := Prefix(model, i);
            (j < KEYS ==> Key(j) <= model) && forall k :: i <= k < j ==> !(Key(k) <= model)
    decreases KEYS - i
  {
    if i < KEYS && !(Key(i) <= model) {
      PrefixIsFirst(model, i + 1);
    }
  }

  lemma {:induction false} ExactIsFirst(model: string, i: nat)
    requires i <= KEYS
    ensures var j := Exact(model, i);
            (j < KEYS ==> Key(j) == model) && forall k :: i <= k < j ==> Key(k) != model
    decreases KEYS - i
  {
    if i < KEYS && Key(i) != model {
      ExactIsFirst(model, i + 1);
    }
  }

  predicate IsLongest(model: string, j: nat) {
    j < KEYS && Key(j) <= model && forall k :: 0 <= k < KEYS && Key(k) <= model ==> |Key(k)| <= |Key(j)|
  }

  lemma KeysShrink(i: nat, j: nat)
    requires i <= j < KEYS
    ensures |Key(i)| >= |Key(j)|
  {
  }

  lemma FirstIsLongest(model: string, j: nat)
    requires j < KEYS && Key(j) <= model && forall k :: 0 <= k < j ==> !(Key(k) <= model)
    ensures IsLongest(model, j)
  {
    forall k | 0 <= k < KEYS && Key(k) <= model ensures |Key(k)| <= |Key(j)| {
      KeysShrink(j, k);
    }
  }

  lemma ExactIsLongest(model: string, j: nat)
    requires j < KEYS && Key(j) == model
    ensures IsLongest(model, j)
  {
  }

  /** The price of a model is that of the longest key its name starts with, and there is none exactly when
      its name starts with no key. */
  lemma LookupIsLongestPrefix(model: string)
    ensures match Lookup(model)
            case None => forall j :: 0 <= j < KEYS ==> !(Key(j) <= model)
            case Some(rate) => exists j :: IsLongest(model, j) && rate == RateAt(j)
  {
    var e, p := Exact(model, 0), Prefix(model, 0);
    ExactIsFirst(model, 0);
    PrefixIsFirst(model, 0);
    if e < KEYS {
      ExactIsLongest(model, e);
    } else if p < KEYS {
      FirstIsLongest(model, p);
    }
  }

  lemma KeysDiffer(i: nat, j: nat)
    requires i < KEYS && j < KEYS && Key(i) == Key(j)
    ensures i == j
  {
  }

  /** Only one listed name is the longest, and its price is the one found. */
  lemma LongestIsOne(model: string, j: nat)
    requires IsLongest(model, j)
    ensures Lookup(model) == Some(RateAt(j))
  {
    LookupIsLongestPrefix(model);
    assert Key(j) <= model;
    var k :| IsLongest(model, k) && Lookup(model) == Some(RateAt(k));
    assert Key(j) == model[..|Key(j)|] && Key(k) == model[..|Key(k)|];
    KeysDiffer(j, k);
  }

  function CostAt(rate: Rate, u: Usage): int {
    var w := CacheWrites(u);
    20 * rate.input * u.input + 20 * rate.output * u.output
    + 25 * rate.input * w.fiveMin + 40 * rate.input * w.oneHour + 2 * rate.input * u.cacheRead
  }

  function Cost(model: string, u: Usage): Option<int> {
    match Lookup(model)
    case None => None
    case Some(rate) => Some(CostAt(rate, u))
  }

  /** Reading from cache costs a tenth of the input price; the rest is what caching saved. */
  function CacheSavings(model: string, u: Usage): int {
    match Lookup(model)
    case None => 0
    case Some(rate) =>
      if u.cacheRead == 0 then 0 else 20 * rate.input * u.cacheRead - 2 * rate.input * u.cacheRead
  }

  // ---------------------------------------------------------------------------------------------
  // What that comes to
  // ---------------------------------------------------------------------------------------------

  /** A dollar, in these units. */
  const DOLLAR := 20_000_000

  /** The price of a million tokens of each kind: a cache read costs a tenth of an input token, writing to cache for
      five minutes five quarters and for an hour two. */
  lemma MillionTokens(rate: Rate)
    ensures CostAt(rate, NO_USAGE.(input := 1_000_000)) == rate.input * DOLLAR
    ensures CostAt(rate, NO_USAGE.(output := 1_000_000)) == rate.output * DOLLAR
    ensures 10 * CostAt(rate, NO_USAGE.(cacheRead := 1_000_000)) == rate.input * DOLLAR
    ensures 4 * CostAt(rate, NO_USAGE.(cacheWrite := 1_000_000)) == 5 * rate.input * DOLLAR
    ensures 4 * CostAt(rate, NO_USAGE.(split := Some(CacheSplit(1_000_000, 0)))) == 5 * rate.input * DOLLAR
    ensures CostAt(rate, NO_USAGE.(split := Some(CacheSplit(0, 1_000_000)))) == 2 * rate.input * DOLLAR
  {
  }

  /** Both usages together, broken down by tier. */
  function Both(u: Usage, v: Usage): Usage {
    var a, b := CacheWrites(u), CacheWrites(v);
    Usage(u.input + v.input, u.output + v.output, u.cacheWrite + v.cacheWrite, u.cacheRead + v.cacheRead,
          Some(CacheSplit(a.fiveMin + b.fiveMin, a.oneHour + b.oneHour)), None)
  }

  lemma CostAdds(rate: Rate, u: Usage, v: Usage)
    ensures CostAt(rate, Both(u, v)) == CostAt(rate, u) + CostAt(rate, v)
  {
    Distribute(20 * rate.input, u.input, v.input);
    Distribute(20 * rate.output, u.output, v.output);
    Distribute(25 * rate.input, CacheWrites(u).fiveMin, CacheWrites(v).fiveMin);
    Distribute(40 * rate.input, CacheWrites(u).oneHour, CacheWrites(v).oneHour);
    Distribute(2 * rate.input, u.cacheRead, v.cacheRead);
  }

  lemma Distribute(k: int, x: int, y: int)
    ensures k * (x + y) == k * x + k * y
  {
  }

  /** What was paid and what was saved are together what it costs with every cached token at full price. */
  lemma SavingsComplete(model: string, u: Usage)
    ensures match Lookup(model)
            case None => CacheSavings(model, u) == 0
            case Some(rate) => CostAt(rate, u) + CacheSavings(model, u)
                               == CostAt(rate, u.(input := u.input + u.cacheRead, cacheRead := 0))
  {
    match Lookup(model)
    case None =>
    case Some(rate) => Distribute(20 * rate.input, u.input, u.cacheRead);
  }

  /** No listed name begins another. */
  lemma KeysStandAlone(i: nat, j: nat)
    requires i < KEYS && j < KEYS && Key(i) <= Key(j)
    ensures i == j
  {
    assert Key(i)[7] == Key(j)[7] && Key(i)[12] == Key(j)[12];
    assert |Key(i)| > 14 ==> Key(i)[14] == Key(j)[14];
  }

  lemma KeyIsLongest(model: string, j: nat)
    requires j < KEYS && Key(j) <= model
    ensures IsLongest(model, j) && Lookup(model) == Some(RateAt(j))
  {
    forall k | 0 <= k < KEYS && Key(k) <= model ensures k == j {
      if |Key(k)| <= |Key(j)| {
        assert Key(k) <= Key(j);
        KeysStandAlone(k, j);
      } else {
        assert Key(j) <= Key(k);
        KeysStandAlone(j, k);
      }
    }
    LongestIsOne(model, j);
  }

  /** The list, in dollars per million tokens, for the bare names and for dated ones alike. */
  lemma ListPrices(dated: string)
    ensures Lookup("claude-fable-5" + dated) == Some(Rate(10, 50))
    ensures Lookup("claude-mythos-5" + dated) == Some(Rate(10, 50))
    ensures Lookup("claude-opus-5" + dated) == Some(Rate(5, 25))
    ensures Lookup("claude-opus-4-8" + dated) == Some(Rate(5, 25))
    ensures Lookup("claude-opus-4-7" + dated) == Some(Rate(5, 25))
    ensures Lookup("claude-opus-4-6" + dated) == Some(Rate(5, 25))
    ensures Lookup("claude-sonnet-5" + dated) == Some(Rate(2, 10))
    ensures Lookup("claude-sonnet-4-6" + dated) == Some(Rate(3, 15))
    ensures Lookup("claude-haiku-4-5" + dated) == Some(Rate(1, 5))
  {
    assert Lookup("claude-fable-5" + dated) == Some(Rate(10, 50)) by {
      KeyIsLongest("claude-fable-5" + dated, 7);
    }
    assert Lookup("claude-mythos-5" + dated) == Some(Rate(10, 50)) by {
      KeyIsLongest("claude-mythos-5" + dated, 2);
    }
    assert Lookup("claude-opus-5" + dated) == Some(Rate(5, 25)) by {
      KeyIsLongest("claude-opus-5" + dated, 8);
    }
    assert Lookup("claude-opus-4-8" + dated) == Some(Rate(5, 25)) by {
      KeyIsLongest("claude-opus-4-8" + dated, 3);
    }
    assert Lookup("claude-opus-4-7" + dated) == Some(Rate(5, 25)) by {
      KeyIsLongest("claude-opus-4-7" + dated, 4);
    }
    assert Lookup("claude-opus-4-6" + dated) == Some(Rate(5, 25)) by {
      KeyIsLongest("claude-opus-4-6" + dated, 5);
    }
    assert Lookup("claude-sonnet-5" + dated) == Some(Rate(2, 10)) by {
      KeyIsLongest("claude-sonnet-5" + dated, 6);
    }
    assert Lookup("claude-sonnet-4-6" + dated) == Some(Rate(3, 15)) by {
      KeyIsLongest("claude-sonnet-4-6" + dated, 0);
    }
    assert Lookup("claude-haiku-4-5" + dated) == Some(Rate(1, 5)) by {
      KeyIsLongest("claude-haiku-4-5" + dated, 1);
    }
  }
}
