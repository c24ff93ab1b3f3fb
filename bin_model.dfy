/** The bin fill-level simulator of main.js as a pure state machine: the fill levels
    (`binData`), the `warning-shown` flags on the bin cards, and the armed one-shot
    timers that will clear those flags. */
module BinModel {

  /** A bin at this level is full and is skipped by a tick. */
  const Full := 100
  /** A tick that leaves a bin at this level or above shows its warning. */
  const WarnAt := 90
  /** The bins that have a card on the page, and so can carry a warning flag. */
  const Cards: set<string> := {"plastic", "paper", "organic"}

  /** Fill levels by bin name, the cards flagged `warning-shown`, and one entry per
      armed timer that will clear a card's flag. */
  datatype Sim = Sim(levels: map<string, int>, warned: set<string>, timers: multiset<string>)

  /** What can happen to the simulator: a click on "empty", one tick of the
      interval timer with the increments it drew, and a clear-warning timer firing. */
  datatype Event = Empty(bin: string) | Tick(incs: map<string, int>) | ClearWarning(bin: string)

  /** The state at page load: the seed levels, no flags, no timers. */
  function Seed(): (s: Sim)
    ensures s.levels.Keys == Cards
    ensures s.warned == {} && s.timers == multiset{}
  {
    Sim(map["plastic" := 75, "paper" := 45, "organic" := 90], {}, multiset{})
  }

  predicate InRange(levels: map<string, int>) {
    forall b :: b in levels ==> 0 <= levels[b] <= Full
  }

  /** Every level is a percentage, every card keeps its bin, a flag is set only on a
      card, and every set flag has exactly one timer armed to clear it (and no timer
      is armed for a clear flag). */
  predicate Inv(s: Sim) {
    && InRange(s.levels)
    && Cards <= s.levels.Keys
    && s.warned <= Cards
    && s.timers == multiset(s.warned)
  }

  /** The increments a tick drew: one in 1..5 for every bin that is not full. */
  predicate ValidDraws(levels: map<string, int>, incs: map<string, int>) {
    forall b :: b in levels && levels[b] < Full ==> b in incs && 1 <= incs[b] <= 5
  }

  function Min(a: int, b: int): int {
    if a <= b then a else b
  }

  /** One bin below `Full` raised by the increment `inc` and capped at `Full`. */
  function Fill(level: int, inc: int): (r: int)
    requires level < Full && 1 <= inc <= 5
    ensures level < r <= Full
    ensures r <= level + inc
    ensures r == Full || r == level + inc
  {
    Min(level + inc, Full)
  }

  /** A bin's level after a tick: full bins are skipped. */
  function NextLevel(levels: map<string, int>, incs: map<string, int>, b: string): int
    requires b in levels && ValidDraws(levels, incs)
  {
    if levels[b] < Full then Fill(levels[b], incs[b]) else levels[b]
  }

  /** `b`'s warning is shown in a tick: it was below `Full`, the tick took it to
      `WarnAt` or more, it has a card, and that card was not already flagged. */
  predicate Arms(s: Sim, incs: map<string, int>, b: string)
    requires ValidDraws(s.levels, incs)
  {
    && b in s.levels && s.levels[b] < Full && Fill(s.levels[b], incs[b]) >= WarnAt
    && Shows(s, b)
  }

  /** The bins whose warning a tick shows. */
  function Armed(s: Sim, incs: map<string, int>): set<string>
    requires ValidDraws(s.levels, incs)
  {
    set b | b in s.levels && Arms(s, incs, b)
  }

  /** `showWarning` acts on `bin`: it has a card, and the card is not flagged yet. */
  predicate Shows(s: Sim, bin: string) {
    bin in Cards && bin !in s.warned
  }

  /** `showWarning`: a card not yet flagged gets the flag and a timer armed to clear
      it; a flagged card, or a bin without a card, is left alone. */
  function ShowStep(s: Sim, bin: string): Sim {
    if Shows(s, bin) then s.(warned := s.warned + {bin}, timers := s.timers + multiset{bin})
    else s
  }

  /** The `forEach` callback of a tick for one bin, with the increment `inc` drawn
      for it: a bin below `Full` rises, capped at `Full`, and shows its warning
      when it reaches `WarnAt`. */
  function VisitBin(s: Sim, bin: string, inc: int): Sim
    requires bin in s.levels && (s.levels[bin] < Full ==> 1 <= inc <= 5)
  {
    if s.levels[bin] < Full then
      var level := Fill(s.levels[bin], inc);
      var filled := s.(levels := s.levels[bin := level]);
      if level >= WarnAt then ShowStep(filled, bin) else filled
    else s
  }

  /** `emptyBin`: the assignment `binData[bin] = 0`, which adds `bin` when it is new. */
  function EmptyStep(s: Sim, bin: string): Sim {
    s.(levels := s.levels[bin := 0])
  }

  /** One run of the interval callback. */
  function TickStep(s: Sim, incs: map<string, int>): Sim
    requires ValidDraws(s.levels, incs)
  {
    var armed := Armed(s, incs);
    Sim(map b | b in s.levels :: NextLevel(s.levels, incs, b), s.warned + armed, s.timers + multiset(armed))
  }

  /** The clear-warning timer of `bin` fires: the flag goes, whatever the level. */
  function ClearStep(s: Sim, bin: string): Sim
    requires bin in s.timers
  {
    s.(warned := s.warned - {bin}, timers := s.timers - multiset{bin})
  }

  /** An event can happen: a tick needs its draws, a timer must have been armed. */
  predicate Enabled(s: Sim, e: Event) {
    match e
    case Empty(_) => true
    case Tick(incs) => ValidDraws(s.levels, incs)
    case ClearWarning(bin) => bin in s.timers
  }

  function Apply(s: Sim, e: Event): Sim
    requires Enabled(s, e)
  {
    match e
    case Empty(bin) => EmptyStep(s, bin)
    case Tick(incs) => TickStep(s, incs)
    case ClearWarning(bin) => ClearStep(s, bin)
  }

  /** Every event of `es` can happen in turn from `s`. */
  predicate Admissible(s: Sim, es: seq<Event>)
    decreases |es|
  {
    es == [] || (Enabled(s, es[0]) && Admissible(Apply(s, es[0]), es[1..]))
  }

  function Run(s: Sim, es: seq<Event>): Sim
    requires Admissible(s, es)
    decreases |es|
  {
    if es == [] then s else Run(Apply(s, es[0]), es[1..])
  }

  // ---------------------------------------------------------------------------
  // A tick bin by bin

  /** The state part-way through a tick, once the bins in `done` have been visited. */
  function Progress(s: Sim, incs: map<string, int>, done: set<string>): Sim
    requires ValidDraws(s.levels, incs)
  {
    var armed := ArmedIn(s, incs, done);
    Sim(map b | b in s.levels :: if b in done then NextLevel(s.levels, incs, b) else s.levels[b],
        s.warned + armed, s.timers + multiset(armed))
  }

  lemma ProgressNone(s: Sim, incs: map<string, int>)
    requires ValidDraws(s.levels, incs)
    ensures Progress(s, incs, {}) == s
  {
    assert Progress(s, incs, {}).levels == s.levels;
  }

  /** The bins whose warning shows once the bins in `done` have been visited. */
  function ArmedIn(s: Sim, incs: map<string, int>, done: set<string>): set<string>
    requires ValidDraws(s.levels, incs)
  {
    set b | b in done && Arms(s, incs, b)
  }

  lemma ArmedInVisit(s: Sim, incs: map<string, int>, done: set<string>, bin: string)
    requires ValidDraws(s.levels, incs) && bin !in done
    ensures bin !in ArmedIn(s, incs, done)
    ensures ArmedIn(s, incs, done + {bin}) == ArmedIn(s, incs, done) + (if Arms(s, incs, bin) then {bin} else {})
  {
  }

  lemma ProgressVisitLevels(s: Sim, incs: map<string, int>, done: set<string>, bin: string)
    requires ValidDraws(s.levels, incs) && bin in s.levels && bin !in done
    ensures var l := Progress(s, incs, done).levels;
      && bin in l && l[bin] == s.levels[bin]
      && Progress(s, incs, done + {bin}).levels == l[bin := NextLevel(s.levels, incs, bin)]
  {
  }

  lemma ProgressVisitFlags(s: Sim, incs: map<string, int>, done: set<string>, bin: string)
    requires ValidDraws(s.levels, incs) && bin in s.levels && bin !in done
    ensures var p, q := Progress(s, incs, done), Progress(s, incs, done + {bin});
      && (bin in p.warned <==> bin in s.warned)
      && q.warned == (if Arms(s, incs, bin) then p.warned + {bin} else p.warned)
      && q.timers == (if Arms(s, incs, bin) then p.timers + multiset{bin} else p.timers)
  {
    ArmedInVisit(s, incs, done, bin);
    MultisetOfDisjointUnion(ArmedIn(s, incs, done), {bin});
  }

  /** Visiting a bin not yet visited, with its own draw, extends the progress by
      that bin: what it does depends only on its own level and draw, which the
      earlier visits left alone. */
  lemma ProgressVisit(s: Sim, incs: map<string, int>, done: set<string>, bin: string)
    requires ValidDraws(s.levels, incs) && bin in s.levels && bin !in done
    ensures var p := Progress(s, incs, done);
      && bin in p.levels && p.levels[bin] == s.levels[bin]
      && (bin in p.warned <==> bin in s.warned)
      && VisitBin(p, bin, if s.levels[bin] < Full then incs[bin] else 0) == Progress(s, incs, done + {bin})
  {
    ProgressVisitLevels(s, incs, done, bin);
    ProgressVisitFlags(s, incs, done, bin);
  }

  /** Once every bin has been visited, in whatever order, the tick is `TickStep`. */
  lemma ProgressAll(s: Sim, incs: map<string, int>)
    requires ValidDraws(s.levels, incs)
    ensures Progress(s, incs, s.levels.Keys) == TickStep(s, incs)
  {
    assert Progress(s, incs, s.levels.Keys).levels == TickStep(s, incs).levels;
  }

  // ---------------------------------------------------------------------------
  // Emptying

  /** `emptyBin(bin)` leaves `bin` at 0, keeps every other bin, adds `bin` to the
      names exactly when it was not there, and touches no flag or timer. */
  lemma EmptyEffect(s: Sim, bin: string)
    ensures var r := EmptyStep(s, bin);
      && bin in r.levels && r.levels[bin] == 0
      && (forall b :: b in s.levels && b != bin ==> b in r.levels && r.levels[b] == s.levels[b])
      && r.levels.Keys == s.levels.Keys + {bin}
      && (|r.levels| == |s.levels| + 1 <==> bin !in s.levels)
      && r.warned == s.warned && r.timers == s.timers
  {
    var r := EmptyStep(s, bin);
    if bin in s.levels {
      assert r.levels.Keys == s.levels.Keys;
    } else {
      assert |r.levels.Keys| == |s.levels.Keys + {bin}| == |s.levels.Keys| + 1;
    }
  }

  lemma EmptyKeepsInv(s: Sim, bin: string)
    requires Inv(s)
    ensures Inv(EmptyStep(s, bin))
  {
  }

  // ---------------------------------------------------------------------------
  // Ticking

  /** A tick keeps the set of bin names. */
  lemma TickKeepsNames(s: Sim, incs: map<string, int>)
    requires ValidDraws(s.levels, incs)
    ensures TickStep(s, incs).levels.Keys == s.levels.Keys
  {
  }

  /** A full bin is left as it is; a bin below `Full` rises by its draw, capped at
      `Full`, so strictly and by at most 5. */
  lemma TickLevel(s: Sim, incs: map<string, int>, b: string)
    requires ValidDraws(s.levels, incs) && b in s.levels
    ensures var l, l' := s.levels[b], TickStep(s, incs).levels[b];
      && (l >= Full ==> l' == l)
      && (l < Full ==> l < l' <= Full && l' <= l + 5 && l' == Min(l + incs[b], Full))
  {
  }

  /** One bin's new level depends only on its own old level and its own draw. */
  lemma TickIsPerBin(s: Sim, incs: map<string, int>, t: Sim, jncs: map<string, int>, b: string)
    requires ValidDraws(s.levels, incs) && ValidDraws(t.levels, jncs)
    requires b in s.levels && b in t.levels && s.levels[b] == t.levels[b]
    requires s.levels[b] < Full ==> incs[b] == jncs[b]
    ensures TickStep(s, incs).levels[b] == TickStep(t, jncs).levels[b]
  {
  }

  /** The multiset of a union of disjoint sets is the sum of their multisets. */
  lemma MultisetOfDisjointUnion(a: set<string>, b: set<string>)
    requires a !! b
    ensures multiset(a + b) == multiset(a) + multiset(b)
  {
  }

  lemma TickKeepsInv(s: Sim, incs: map<string, int>)
    requires Inv(s) && ValidDraws(s.levels, incs)
    ensures Inv(TickStep(s, incs))
  {
    MultisetOfDisjointUnion(s.warned, Armed(s, incs));
  }

  /** A clear flag becomes set in a tick exactly when the bin has a card, was
      below `Full`, and the tick took it to `WarnAt` or more. */
  lemma TickRaisesWarning(s: Sim, incs: map<string, int>, b: string)
    requires ValidDraws(s.levels, incs) && b !in s.warned
    ensures var r := TickStep(s, incs);
      b in r.warned <==>
        b in Cards && b in s.levels && s.levels[b] < Full && r.levels[b] >= WarnAt
  {
  }

  /** A flag already set stays set, and no second timer is armed for it. */
  lemma TickKeepsRaisedWarning(s: Sim, incs: map<string, int>, b: string)
    requires ValidDraws(s.levels, incs) && b in s.warned
    ensures b in TickStep(s, incs).warned
    ensures TickStep(s, incs).timers[b] == s.timers[b]
  {
    assert b !in Armed(s, incs);
  }

  /** A full bin whose flag has been cleared is never warned about again while
      it stays full: ticks skip it. */
  lemma FullBinStaysUnwarned(s: Sim, incs: map<string, int>, b: string)
    requires ValidDraws(s.levels, incs) && b in s.levels && s.levels[b] >= Full && b !in s.warned
    ensures b !in TickStep(s, incs).warned
    ensures TickStep(s, incs).levels[b] == s.levels[b]
  {
  }

  // ---------------------------------------------------------------------------
  // The clear-warning timer

  /** The timer clears the flag and consumes itself whatever the bin's level is,
      and changes no level. */
  lemma ClearEffect(s: Sim, bin: string)
    requires Inv(s) && bin in s.timers
    ensures var r := ClearStep(s, bin);
      && bin !in r.warned && bin !in r.timers
      && r.warned == s.warned - {bin}
      && r.levels == s.levels
  {
  }

  lemma ClearKeepsInv(s: Sim, bin: string)
    requires Inv(s) && bin in s.timers
    ensures Inv(ClearStep(s, bin))
  {
    assert s.warned == (s.warned - {bin}) + {bin};
    MultisetOfDisjointUnion(s.warned - {bin}, {bin});
  }

  // ---------------------------------------------------------------------------
  // Any sequence of events

  lemma ApplyKeepsInv(s: Sim, e: Event)
    requires Inv(s) && Enabled(s, e)
    ensures Inv(Apply(s, e))
  {
    match e
    case Empty(bin) => EmptyKeepsInv(s, bin);
    case Tick(incs) => TickKeepsInv(s, incs);
    case ClearWarning(bin) => ClearKeepsInv(s, bin);
  }

  /** The invariant holds after any sequence of events that can happen. */
  lemma {:induction false} RunKeepsInv(s: Sim, es: seq<Event>)
    requires Inv(s) && Admissible(s, es)
    ensures Inv(Run(s, es))
    decreases |es|
  {
    if es != [] {
      ApplyKeepsInv(s, es[0]);
      RunKeepsInv(Apply(s, es[0]), es[1..]);
    }
  }

  /** From the seed levels 75/45/90, every level stays in 0..100 after any
      sequence of emptyings, ticks and timer firings. */
  lemma LevelsStayInRange(es: seq<Event>)
    requires Admissible(Seed(), es)
    ensures InRange(Run(Seed(), es).levels)
  {
    RunKeepsInv(Seed(), es);
  }

  /** Emptying "organic" from the seed leaves plastic at 75, paper at 45, organic at 0. */
  lemma EmptyOrganicFromSeed()
    ensures EmptyStep(Seed(), "organic").levels == map["plastic" := 75, "paper" := 45, "organic" := 0]
  {
  }
}
