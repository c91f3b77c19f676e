/** Route choice: compatibility filtering, health preference, fallback and the diagnosis of failures. */
module Routing {
  import opened Common

  datatype Kind = OpenAiCompatible | Ollama | LlamaCpp

  datatype Route = Route(name: string, kind: Kind, streaming: bool)

  /** The configured routes, keyed by name in insertion order, and the default route. */
  datatype Router = Router(routes: seq<Route>, default: Route)

  function Names(rs: seq<Route>): set<string> {
    set r | r in rs :: r.name
  }

  ghost predicate ValidRouter(r: Router) {
    && (forall i, j :: 0 <= i < j < |r.routes| ==> r.routes[i].name != r.routes[j].name)
    && r.default.name in Names(r.routes)
  }

  datatype Probe = Probe(total: int, failed: int, healthy: bool, streak: int)

  /** What routing reads at one instant: endpoints whose breaker allows traffic, cached probes, and
      endpoints whose known models match the requested one. */
  datatype Instant = Instant(allowed: set<string>, cache: map<string, Probe>, modelOk: set<string>)

  /** A family of None stands for an unknown family name; the model is optional and may be empty. */
  datatype Wanted = Wanted(family: Option<Kind>, model: string, streaming: bool)

  // ----- Order of preference -----

  predicate LexLe(a: string, b: string) {
    a == [] || (b != [] && (a[0] < b[0] || (a[0] == b[0] && LexLe(a[1..], b[1..]))))
  }

  lemma {:induction false} LexTotal(a: string, b: string)
    ensures LexLe(a, b) || LexLe(b, a)
  {
    if a != [] && b != [] {
      LexTotal(a[1..], b[1..]);
    }
  }

  lemma {:induction false} LexTransitive(a: string, b: string, c: string)
    requires LexLe(a, b) && LexLe(b, c)
    ensures LexLe(a, c)
  {
    if a != [] && b != [] && c != [] && a[0] == b[0] == c[0] {
      LexTransitive(a[1..], b[1..], c[1..]);
    }
  }

  lemma {:induction false} LexAntisymmetric(a: string, b: string)
    requires LexLe(a, b) && LexLe(b, a)
    ensures a == b
  {
    if a != [] && b != [] {
      LexAntisymmetric(a[1..], b[1..]);
    }
  }

  /** Failure rate rounded to four decimals, as a count of ten-thousandths. */
  function FailureRate(p: Probe): int {
    if p.total <= 0 then 0 else RoundHalfEven(p.failed as real / p.total as real * 10000.0)
  }

  function RateOf(i: Instant, r: Route): int {
    if r.name in i.cache then FailureRate(i.cache[r.name]) else 0
  }

  function StreakOf(i: Instant, r: Route): int {
    if r.name in i.cache then i.cache[r.name].streak else 0
  }

  /** Lower failure rate, then shorter streak, then name. */
  predicate PreferLe(i: Instant, a: Route, b: Route) {
    var x, y := RateOf(i, a), RateOf(i, b);
    var m, n := StreakOf(i, a), StreakOf(i, b);
    x < y || (x == y && (m < n || (m == n && LexLe(a.name, b.name))))
  }

  lemma PreferOrder(i: Instant, a: Route, b: Route, c: Route)
    ensures PreferLe(i, a, b) || PreferLe(i, b, a)
    ensures PreferLe(i, a, b) && PreferLe(i, b, c) ==> PreferLe(i, a, c)
  {
    LexTotal(a.name, b.name);
    if LexLe(a.name, b.name) && LexLe(b.name, c.name) {
      LexTransitive(a.name, b.name, c.name);
    }
  }

  function Best(i: Instant, pool: seq<Route>): (best: Route)
    requires pool != []
    ensures best in pool && forall r :: r in pool ==> PreferLe(i, best, r)
  {
    if |pool| == 1 then
      PreferOrder(i, pool[0], pool[0], pool[0]);
      pool[0]
    else
      var rest := Best(i, pool[1..]);
      assert forall r :: r in pool ==> r == pool[0] || r in pool[1..];
      PreferOrder(i, pool[0], rest, rest);
      PreferOrder(i, pool[0], pool[0], pool[0]);
      assert forall r :: r in pool[1..] && PreferLe(i, pool[0], rest) ==> PreferLe(i, pool[0], r) by {
        forall r | r in pool[1..] && PreferLe(i, pool[0], rest) ensures PreferLe(i, pool[0], r) {
          PreferOrder(i, pool[0], rest, r);
        }
      }
      if PreferLe(i, pool[0], rest) then pool[0] else rest
  }

  /** Over distinct names the preferred route is unique, so the order of the pool does not matter. */
  lemma BestIsUnique(i: Instant, pool: seq<Route>, x: Route)
    requires x in pool && forall r :: r in pool ==> PreferLe(i, x, r)
    requires forall a, b :: a in pool && b in pool && a.name == b.name ==> a == b
    ensures x == Best(i, pool)
  {
    var best := Best(i, pool);
    assert PreferLe(i, x, best) && PreferLe(i, best, x);
    LexAntisymmetric(x.name, best.name);
  }

  // ----- Selection -----

  function Filter(rs: seq<Route>, keep: Route -> bool): (kept: seq<Route>)
    ensures forall r :: r in kept <==> r in rs && keep(r)
  {
    if rs == [] then []
    else
      assert forall r :: r in rs <==> r == rs[0] || r in rs[1..];
      (if keep(rs[0]) then [rs[0]] else []) + Filter(rs[1..], keep)
  }

  predicate KindAndStreaming(w: Wanted, r: Route) {
    Some(r.kind) == w.family && (w.streaming ==> r.streaming)
  }

  predicate ModelFits(w: Wanted, i: Instant, r: Route) {
    w.model != "" ==> r.name in i.modelOk
  }

  /** The route serves the family, the streaming mode and the model, and is not excluded. */
  predicate Fits(w: Wanted, exclude: set<string>, i: Instant, r: Route) {
    KindAndStreaming(w, r) && r.name !in exclude && ModelFits(w, i, r)
  }

  predicate CachedHealthy(i: Instant, r: Route) {
    r.name in i.cache ==> i.cache[r.name].healthy
  }

  function Candidates(r: Router, w: Wanted, exclude: set<string>, i: Instant): seq<Route> {
    Filter(r.routes, (x: Route) => Fits(w, exclude, i, x))
  }

  function Available(r: Router, w: Wanted, exclude: set<string>, i: Instant): seq<Route> {
    Filter(Candidates(r, w, exclude, i), (x: Route) => x.name in i.allowed)
  }

  function Healthy(r: Router, w: Wanted, exclude: set<string>, i: Instant): seq<Route> {
    Filter(Available(r, w, exclude, i), (x: Route) => CachedHealthy(i, x))
  }

  /** An unknown family gets the default route; otherwise the best available route, if any. */
  function SelectCompatible(r: Router, w: Wanted, exclude: set<string>, i: Instant): Option<Route> {
    if w.family.None? then Some(r.default)
    else if Available(r, w, exclude, i) == [] then None
    else if Healthy(r, w, exclude, i) != [] then Some(Best(i, Healthy(r, w, exclude, i)))
    else Some(Best(i, Available(r, w, exclude, i)))
  }

  datatype Failure =
    | UnknownEndpoint(name: string)
    | ExplicitExcluded(name: string)
    | ExplicitOpen(name: string)
    | WrongFamily(name: string)
    | NoStreaming(name: string)
    | WrongModel(name: string)
    | UnknownFamily
    | AllExcluded
    | NoFamilyRoute
    | NoStreamRoute
    | NoModelRoute
    | AllOpen

  /** The endpoint a failure names; only failures of an explicit choice name one. */
  function NamedEndpoint(f: Failure): Option<string> {
    match f
    case UnknownEndpoint(n) => Some(n)
    case ExplicitExcluded(n) => Some(n)
    case ExplicitOpen(n) => Some(n)
    case WrongFamily(n) => Some(n)
    case NoStreaming(n) => Some(n)
    case WrongModel(n) => Some(n)
    case _ => None
  }

  datatype Selection = Selected(route: Route) | Refused(failure: Failure)

  function Lookup(rs: seq<Route>, name: string): (found: Option<Route>)
    ensures found.Some? ==> found.value in rs && found.value.name == name
    ensures found.None? <==> name !in Names(rs)
  {
    if rs == [] then None
    else if rs[0].name == name then Some(rs[0])
    else
      assert Names(rs) == {rs[0].name} + Names(rs[1..]);
      Lookup(rs[1..], name)
  }

  function SelectExplicit(r: Router, name: string, w: Wanted, exclude: set<string>, i: Instant): Selection {
    match Lookup(r.routes, name)
    case None => Refused(UnknownEndpoint(name))
    case Some(x) =>
      if x.name in exclude then Refused(ExplicitExcluded(name))
      else if x.name !in i.allowed then Refused(ExplicitOpen(name))
      else if w.family.Some? && x.kind != w.family.value then Refused(WrongFamily(name))
      else if w.streaming && !x.streaming then Refused(NoStreaming(name))
      else if !ModelFits(w, i, x) then Refused(WrongModel(name))
      else Selected(x)
  }

  predicate FallbackOk(r: Router, exclude: set<string>, i: Instant) {
    r.default.name !in exclude && r.default.name in i.allowed
  }

  function Remaining(r: Router, exclude: set<string>): seq<Route> {
    Filter(r.routes, (x: Route) => x.name !in exclude)
  }

  function OfFamily(r: Router, w: Wanted, exclude: set<string>): seq<Route> {
    Filter(Remaining(r, exclude), (x: Route) => Some(x.kind) == w.family)
  }

  function OfStream(r: Router, w: Wanted, exclude: set<string>): seq<Route> {
    Filter(OfFamily(r, w, exclude), (x: Route) => !w.streaming || x.streaming)
  }

  function OfModel(r: Router, w: Wanted, exclude: set<string>, i: Instant): seq<Route> {
    Filter(OfStream(r, w, exclude), (x: Route) => ModelFits(w, i, x))
  }

  /** The diagnosis that names the reason, written out a second time over the same routes. */
  function Diagnose(r: Router, w: Wanted, exclude: set<string>, i: Instant): Failure {
    if w.family.None? then UnknownFamily
    else if exclude != {} && Remaining(r, exclude) == [] then AllExcluded
    else if OfFamily(r, w, exclude) == [] then NoFamilyRoute
    else if OfStream(r, w, exclude) == [] then NoStreamRoute
    else if OfModel(r, w, exclude, i) == [] then NoModelRoute
    else AllOpen
  }

  /** An empty endpoint name stands for automatic routing. */
  function SelectRoute(r: Router, endpoint: string, w: Wanted, exclude: set<string>, i: Instant): Selection {
    if endpoint != "" then SelectExplicit(r, endpoint, w, exclude, i)
    else
      match SelectCompatible(r, w, exclude, i)
      case Some(x) => Selected(x)
      case None => if FallbackOk(r, exclude, i) then Selected(r.default) else Refused(Diagnose(r, w, exclude, i))
  }

  // ----- What selection guarantees -----

  /** A fitting route whose breaker allows traffic. */
  predicate Usable(w: Wanted, exclude: set<string>, i: Instant, x: Route) {
    Fits(w, exclude, i, x) && x.name in i.allowed
  }

  /** The compatible choice exists exactly when some fitting route has traffic allowed; it is a least
      one, in order of preference, among the healthy ones if there are any. */
  lemma CompatibleIsBest(r: Router, w: Wanted, exclude: set<string>, i: Instant)
    requires w.family.Some?
    ensures SelectCompatible(r, w, exclude, i).Some? <==> exists x :: x in r.routes && Usable(w, exclude, i, x)
    ensures var s := SelectCompatible(r, w, exclude, i);
      s.Some? ==>
        && s.value in r.routes && Usable(w, exclude, i, s.value)
        && (forall x | x in r.routes && Usable(w, exclude, i, x) ::
              CachedHealthy(i, x) || !CachedHealthy(i, s.value) ==> PreferLe(i, s.value, x))
        && (!CachedHealthy(i, s.value) ==>
              forall x :: x in r.routes && Usable(w, exclude, i, x) ==> !CachedHealthy(i, x))
  {
    var available, healthy := Available(r, w, exclude, i), Healthy(r, w, exclude, i);
    assert forall x :: x in available <==> x in r.routes && Usable(w, exclude, i, x);
    if available != [] {
      assert available[0] in available;
    }
    if healthy != [] {
      assert healthy[0] in healthy;
    }
  }

  /** Every route returned may carry traffic and is not excluded. Automatic routing keeps this for every
      known family; for an unknown one it returns the default route without looking. */
  lemma SelectedIsUsable(r: Router, endpoint: string, w: Wanted, exclude: set<string>, i: Instant)
    requires SelectRoute(r, endpoint, w, exclude, i).Selected?
    ensures var x := SelectRoute(r, endpoint, w, exclude, i).route;
      && (x in r.routes || x == r.default)
      && (x.name !in exclude && x.name in i.allowed
          <==> endpoint != "" || w.family.Some? || FallbackOk(r, exclude, i))
  {
    if endpoint == "" && w.family.Some? {
      CompatibleIsBest(r, w, exclude, i);
    }
  }

  /** Automatic routing fails exactly when no fitting route may carry traffic and the default route
      is excluded or open; an unknown family is never reported, although a diagnosis for it exists. */
  lemma RefusedIff(r: Router, w: Wanted, exclude: set<string>, i: Instant)
    ensures SelectRoute(r, "", w, exclude, i).Refused? <==>
        w.family.Some? && !FallbackOk(r, exclude, i)
        && !exists x :: x in r.routes && Usable(w, exclude, i, x)
    ensures SelectRoute(r, "", w, exclude, i) != Refused(UnknownFamily)
  {
    if w.family.Some? {
      CompatibleIsBest(r, w, exclude, i);
    }
  }

  /** The final "all breakers open" error means what it says: it is given exactly when routing fails
      although fitting routes exist, all of which are then open. */
  lemma AllOpenIff(r: Router, w: Wanted, exclude: set<string>, i: Instant)
    requires SelectRoute(r, "", w, exclude, i).Refused?
    ensures SelectRoute(r, "", w, exclude, i).failure.AllOpen?
       <==> exists x :: x in r.routes && Fits(w, exclude, i, x)
    ensures forall x :: x in r.routes && Fits(w, exclude, i, x) ==> x.name !in i.allowed
  {
    RefusedIff(r, w, exclude, i);
    DiagnosisFindsFitting(r, w, exclude, i);
  }

  lemma DiagnosisFindsFitting(r: Router, w: Wanted, exclude: set<string>, i: Instant)
    requires w.family.Some?
    ensures Diagnose(r, w, exclude, i).AllOpen? <==> exists x :: x in r.routes && Fits(w, exclude, i, x)
  {
    var model := OfModel(r, w, exclude, i);
    assert forall x :: x in model <==> x in r.routes && Fits(w, exclude, i, x);
    if model != [] {
      var x := model[0];
      assert x in model && x in OfStream(r, w, exclude) && x in OfFamily(r, w, exclude) && x in Remaining(r, exclude);
    }
  }
}
