/** Which route is chosen, told in the fields of routes and probes alone. */
module RouteChoice {
  import opened Common
  import opened Routing

  // ----- Reading the inputs -----

  /** The route speaks the family, streams if asked to, and is not known to lack the model. */
  predicate Serves(w: Wanted, i: Instant, x: Route) {
    && Some(x.kind) == w.family && (w.streaming ==> x.streaming)
    && (w.model == "" || x.name in i.modelOk)
  }

  predicate MayCarry(exclude: set<string>, i: Instant, x: Route) {
    x.name !in exclude && x.name in i.allowed
  }

  predicate Sound(i: Instant, x: Route) {
    x.name !in i.cache || i.cache[x.name].healthy
  }

  /** The share of failed probes; a route never probed counts as faultless. */
  function FailedShare(i: Instant, x: Route): real {
    if x.name in i.cache && i.cache[x.name].total > 0
    then i.cache[x.name].failed as real / i.cache[x.name].total as real
    else 0.0
  }

  function Streak(i: Instant, x: Route): int {
    if x.name in i.cache then i.cache[x.name].streak else 0
  }

  /** Dictionary order: a prefix comes first, otherwise the first difference decides. */
  ghost predicate InOrder(a: string, b: string) {
    a <= b || exists k :: DiffersAt(a, b, k)
  }

  predicate DiffersAt(a: string, b: string, k: int) {
    0 <= k < |a| && k < |b| && a[..k] == b[..k] && a[k] < b[k]
  }

  lemma {:induction false} LexIsDictionary(a: string, b: string)
    requires LexLe(a, b)
    ensures InOrder(a, b)
  {
    if a != [] && a[0] < b[0] {
      assert DiffersAt(a, b, 0);
    } else if a != [] {
      LexIsDictionary(a[1..], b[1..]);
      if a[1..] <= b[1..] {
        assert a == [a[0]] + a[1..] && b == [b[0]] + b[1..];
      } else {
        var k :| DiffersAt(a[1..], b[1..], k);
        assert a[..k + 1] == [a[0]] + a[1..][..k] && b[..k + 1] == [b[0]] + b[1..][..k];
        assert DiffersAt(a, b, k + 1);
      }
    }
  }

  // ----- The rate that is compared -----

  lemma RoundIsNearest(x: real)
    ensures -0.5 <= RoundHalfEven(x) as real - x <= 0.5
  {
  }

  /** The compared rate is the share of failures in ten-thousandths, to the nearest one. */
  lemma RateIsNearest(i: Instant, x: Route)
    ensures -0.5 <= RateOf(i, x) as real - FailedShare(i, x) * 10000.0 <= 0.5
  {
    if x.name in i.cache && i.cache[x.name].total > 0 {
      RoundIsNearest(FailedShare(i, x) * 10000.0);
    }
  }

  lemma ZeroRounds()
    ensures RoundHalfEven(0.0 * 10000.0) == 0
  {
  }

  // ----- Automatic routing -----

  /** The share lies exactly halfway between two ten-thousandths. */
  predicate Halfway(share: real) {
    share * 10000.0 - (share * 10000.0).Floor as real == 0.5
  }

  /** s is at least as good a choice as x: its share of failures is not above x's by a ten-thousandth,
      unless by exactly one when it lies halfway between two; at equal shares its streak of failures is
      no longer; at equal streaks too its name comes first. */
  ghost predicate NoWorse(i: Instant, s: Route, x: Route) {
    && (FailedShare(i, s) < FailedShare(i, x) + 0.0001
        || (FailedShare(i, s) == FailedShare(i, x) + 0.0001 && Halfway(FailedShare(i, s))))
    && (FailedShare(i, s) == FailedShare(i, x) ==>
          && Streak(i, s) <= Streak(i, x)
          && (Streak(i, s) == Streak(i, x) ==> InOrder(s.name, x.name)))
  }

  lemma NearOrHalfway(a: real, b: real)
    requires RoundHalfEven(a * 10000.0) <= RoundHalfEven(b * 10000.0) && a >= b + 0.0001
    ensures a == b + 0.0001 && Halfway(a)
  {
    RoundIsNearest(a * 10000.0);
    RoundIsNearest(b * 10000.0);
    assert RoundHalfEven(a * 10000.0) as real == a * 10000.0 - 0.5;
  }

  lemma RateIsRounded(i: Instant, x: Route)
    ensures RateOf(i, x) == RoundHalfEven(FailedShare(i, x) * 10000.0)
  {
    ZeroRounds();
  }

  lemma PreferredIsNoWorse(i: Instant, s: Route, x: Route)
    requires PreferLe(i, s, x)
    ensures NoWorse(i, s, x)
  {
    RateIsRounded(i, s);
    RateIsRounded(i, x);
    if FailedShare(i, s) >= FailedShare(i, x) + 0.0001 {
      NearOrHalfway(FailedShare(i, s), FailedShare(i, x));
    }
    if FailedShare(i, s) == FailedShare(i, x) {
      if Streak(i, s) == Streak(i, x) {
        LexIsDictionary(s.name, x.name);
      }
    }
  }

  lemma UsableMeans(w: Wanted, exclude: set<string>, i: Instant, x: Route)
    ensures Usable(w, exclude, i, x) <==> Serves(w, i, x) && MayCarry(exclude, i, x)
    ensures CachedHealthy(i, x) <==> Sound(i, x)
  {
  }

  /** Some configured route serves the request and may carry it. */
  ghost predicate SomeServes(r: Router, w: Wanted, exclude: set<string>, i: Instant) {
    exists x :: x in r.routes && Serves(w, i, x) && MayCarry(exclude, i, x)
  }

  lemma SomeServesMeans(r: Router, w: Wanted, exclude: set<string>, i: Instant)
    ensures SomeServes(r, w, exclude, i) <==> exists x :: x in r.routes && Usable(w, exclude, i, x)
  {
    if x :| x in r.routes && Serves(w, i, x) && MayCarry(exclude, i, x) {
      UsableMeans(w, exclude, i, x);
    }
    if x :| x in r.routes && Usable(w, exclude, i, x) {
      UsableMeans(w, exclude, i, x);
    }
  }

  /** When some route serves the request and may carry it, automatic routing picks such a route: a sound
      one if there is any, and among those of its health class none is better. */
  lemma AutomaticPicksBest(r: Router, w: Wanted, exclude: set<string>, i: Instant)
    requires w.family.Some? && SomeServes(r, w, exclude, i)
    ensures SelectRoute(r, "", w, exclude, i).Selected?
    ensures var s := SelectRoute(r, "", w, exclude, i).route;
      && s in r.routes && Serves(w, i, s) && MayCarry(exclude, i, s)
      && forall x :: x in r.routes && Serves(w, i, x) && MayCarry(exclude, i, x) ==>
           && (Sound(i, x) ==> Sound(i, s))
           && (Sound(i, x) == Sound(i, s) ==> NoWorse(i, s, x))
  {
    CompatibleIsBest(r, w, exclude, i);
    SomeServesMeans(r, w, exclude, i);
    var s := SelectCompatible(r, w, exclude, i).value;
    UsableMeans(w, exclude, i, s);
    forall x | x in r.routes && Serves(w, i, x) && MayCarry(exclude, i, x)
      ensures (Sound(i, x) ==> Sound(i, s)) && (Sound(i, x) == Sound(i, s) ==> NoWorse(i, s, x))
    {
      UsableMeans(w, exclude, i, x);
      if Sound(i, x) == Sound(i, s) {
        PreferredIsNoWorse(i, s, x);
      }
    }
  }

  /** When none does, the default route is taken if it may carry traffic, whatever it serves; otherwise
      routing fails. */
  lemma AutomaticFallsBack(r: Router, w: Wanted, exclude: set<string>, i: Instant)
    requires w.family.Some? && !SomeServes(r, w, exclude, i)
    ensures SelectRoute(r, "", w, exclude, i).Selected? <==> MayCarry(exclude, i, r.default)
    ensures MayCarry(exclude, i, r.default) ==> SelectRoute(r, "", w, exclude, i) == Selected(r.default)
  {
    CompatibleIsBest(r, w, exclude, i);
    SomeServesMeans(r, w, exclude, i);
  }

  /** Shares that differ by less than a ten-thousandth can count as equal: of two routes the one with the
      higher share is chosen for its shorter streak. */
  lemma RoundingCanHide()
    ensures var a, b := Route("a", Ollama, true), Route("b", Ollama, true);
      var i := Instant({"a", "b"}, map["a" := Probe(25000, 4, true, 2), "b" := Probe(25000, 6, true, 1)], {});
      && FailedShare(i, a) < FailedShare(i, b)
      && SelectRoute(Router([a, b], a), "", Wanted(Some(Ollama), "", false), {}, i) == Selected(b)
  {
    var a, b := Route("a", Ollama, true), Route("b", Ollama, true);
    var i := Instant({"a", "b"}, map["a" := Probe(25000, 4, true, 2), "b" := Probe(25000, 6, true, 1)], {});
    var r, w := Router([a, b], a), Wanted(Some(Ollama), "", false);
    assert FailedShare(i, a) == 0.00016 && FailedShare(i, b) == 0.00024;
    assert RateOf(i, a) == 2 && RateOf(i, b) == 2;
    assert a in r.routes && Serves(w, i, a) && MayCarry({}, i, a);
    assert b in r.routes && Serves(w, i, b) && MayCarry({}, i, b);
    CompatibleIsBest(r, w, {}, i);
    assert Usable(w, {}, i, a) && Usable(w, {}, i, b);
    assert !PreferLe(i, a, b);
  }

  /** The bound is sharp: at the halfway point the chosen share can be higher by a whole ten-thousandth. */
  lemma TieHidesOne()
    ensures var a, b := Route("a", Ollama, true), Route("b", Ollama, true);
      var i := Instant({"a", "b"}, map["a" := Probe(20000, 3, true, 2), "b" := Probe(20000, 5, true, 1)], {});
      && FailedShare(i, b) == FailedShare(i, a) + 0.0001 && Halfway(FailedShare(i, b))
      && PreferLe(i, b, a) && !PreferLe(i, a, b)
  {
    var a, b := Route("a", Ollama, true), Route("b", Ollama, true);
    var i := Instant({"a", "b"}, map["a" := Probe(20000, 3, true, 2), "b" := Probe(20000, 5, true, 1)], {});
    assert FailedShare(i, a) == 0.00015 && FailedShare(i, b) == 0.00025;
    assert RateOf(i, a) == 2 && RateOf(i, b) == 2;
  }

  // ----- Explicit endpoints -----

  /** The named route fits the request, an unknown family fitting every kind. */
  predicate NamedFits(w: Wanted, exclude: set<string>, i: Instant, x: Route) {
    && MayCarry(exclude, i, x) && (w.family == None || w.family == Some(x.kind))
    && (w.streaming ==> x.streaming) && (w.model == "" || x.name in i.modelOk)
  }

  /** An explicit endpoint is the one that is used, exactly when it exists and fits; otherwise the first
      test it fails is reported. */
  lemma ExplicitIsNamed(r: Router, x: Route, w: Wanted, exclude: set<string>, i: Instant)
    requires ValidRouter(r) && x in r.routes && x.name != ""
    ensures var s := SelectRoute(r, x.name, w, exclude, i);
      if NamedFits(w, exclude, i, x) then s == Selected(x)
      else s == Refused(if x.name in exclude then ExplicitExcluded(x.name)
                        else if x.name !in i.allowed then ExplicitOpen(x.name)
                        else if w.family != None && w.family != Some(x.kind) then WrongFamily(x.name)
                        else if w.streaming && !x.streaming then NoStreaming(x.name)
                        else WrongModel(x.name))
  {
    var y := Lookup(r.routes, x.name);
    assert x.name in Names(r.routes);
    assert y.value in r.routes && y.value.name == x.name;
  }

  lemma ExplicitUnknown(r: Router, name: string, w: Wanted, exclude: set<string>, i: Instant)
    requires name != "" && forall x :: x in r.routes ==> x.name != name
    ensures SelectRoute(r, name, w, exclude, i) == Refused(UnknownEndpoint(name))
  {
    assert name !in Names(r.routes);
  }

  // ----- What the diagnoses mean -----

  predicate OfKind(w: Wanted, exclude: set<string>, x: Route) {
    x.name !in exclude && Some(x.kind) == w.family
  }

  predicate OfKindAndMode(w: Wanted, exclude: set<string>, x: Route) {
    OfKind(w, exclude, x) && (w.streaming ==> x.streaming)
  }

  lemma FilteredNonEmpty(pool: seq<Route>)
    ensures pool != [] <==> exists x :: x in pool
  {
    if pool != [] {
      assert pool[0] in pool;
    }
  }

  lemma DiagnosisStages(r: Router, w: Wanted, exclude: set<string>, i: Instant)
    ensures Remaining(r, exclude) == [] <==> forall x :: x in r.routes ==> x.name in exclude
    ensures OfFamily(r, w, exclude) == [] <==> forall x :: x in r.routes ==> !OfKind(w, exclude, x)
    ensures OfStream(r, w, exclude) == [] <==> forall x :: x in r.routes ==> !OfKindAndMode(w, exclude, x)
  {
    FilteredNonEmpty(Remaining(r, exclude));
    FilteredNonEmpty(OfFamily(r, w, exclude));
    FilteredNonEmpty(OfStream(r, w, exclude));
    assert forall x :: x in OfFamily(r, w, exclude) <==> x in r.routes && OfKind(w, exclude, x);
    assert forall x :: x in OfStream(r, w, exclude) <==> x in r.routes && OfKindAndMode(w, exclude, x);
  }

  /** Each error of automatic routing says what it means: all routes excluded after failures, none of the
      family left, none of those streaming, none of those with the model, or all of those open. */
  lemma RefusalMeans(r: Router, w: Wanted, exclude: set<string>, i: Instant)
    requires SelectRoute(r, "", w, exclude, i).Refused?
    ensures var f := SelectRoute(r, "", w, exclude, i).failure;
      var routes := r.routes;
      && (f == AllExcluded ==> exclude != {} && forall x :: x in routes ==> x.name in exclude)
      && (f == NoFamilyRoute ==> forall x :: x in routes ==> !OfKind(w, exclude, x))
      && (f == NoStreamRoute ==>
            && w.streaming && (exists x :: x in routes && OfKind(w, exclude, x))
            && forall x :: x in routes && OfKind(w, exclude, x) ==> !x.streaming)
      && (f == NoModelRoute ==>
            && w.model != "" && (exists x :: x in routes && OfKindAndMode(w, exclude, x))
            && forall x :: x in routes && OfKindAndMode(w, exclude, x) ==> x.name !in i.modelOk)
      && (f == AllOpen ==>
            && (exists x :: x in routes && x.name !in exclude && Serves(w, i, x))
            && forall x :: x in routes && x.name !in exclude && Serves(w, i, x) ==> x.name !in i.allowed)
      && (f == AllExcluded || f == NoFamilyRoute || f == NoStreamRoute || f == NoModelRoute || f == AllOpen)
  {
    RefusedIff(r, w, exclude, i);
    DiagnosisStages(r, w, exclude, i);
    var f := SelectRoute(r, "", w, exclude, i).failure;
    if f == AllOpen {
      AllOpenMeans(r, w, exclude, i);
    } else if f == NoModelRoute {
      NoModelMeans(r, w, exclude, i);
    }
  }

  lemma AllOpenMeans(r: Router, w: Wanted, exclude: set<string>, i: Instant)
    requires SelectRoute(r, "", w, exclude, i) == Refused(AllOpen)
    ensures exists x :: x in r.routes && x.name !in exclude && Serves(w, i, x)
    ensures forall x :: x in r.routes && x.name !in exclude && Serves(w, i, x) ==> x.name !in i.allowed
  {
    AllOpenIff(r, w, exclude, i);
    var x :| x in r.routes && Fits(w, exclude, i, x);
    assert x.name !in exclude && Serves(w, i, x);
    assert forall x :: x in r.routes && x.name !in exclude && Serves(w, i, x) ==> Fits(w, exclude, i, x);
  }

  lemma NoModelMeans(r: Router, w: Wanted, exclude: set<string>, i: Instant)
    requires OfModel(r, w, exclude, i) == [] && OfStream(r, w, exclude) != []
    ensures w.model != "" && forall x :: x in r.routes && OfKindAndMode(w, exclude, x) ==> x.name !in i.modelOk
  {
    FilteredNonEmpty(OfModel(r, w, exclude, i));
    assert forall x :: x in OfStream(r, w, exclude) <==> x in r.routes && OfKindAndMode(w, exclude, x);
    assert forall x :: x in OfModel(r, w, exclude, i) <==> x in OfStream(r, w, exclude) && ModelFits(w, i, x);
    assert OfStream(r, w, exclude)[0] in OfStream(r, w, exclude);
  }
}
