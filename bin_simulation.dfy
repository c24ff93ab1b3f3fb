/** The bin simulator of main.js as the page holds it: the module-level `binData`
    object updated in place by `emptyBin` and by the interval callback, and the
    `warning-shown` flags that `showWarning` sets and its timeout clears. */
module BinSimulation {
  import opened Text
  import opened BinModel

  /** The notification `emptyBin` shows. */
  function EmptiedNotice(bin: string): (r: string)
    ensures |r| == |bin| + |" bin has been emptied!"|
    ensures r[..|bin|] == Capitalize(bin)
    ensures r[|bin|..] == " bin has been emptied!"
  {
    Capitalize(bin) + " bin has been emptied!"
  }

  lemma OrganicNotice()
    ensures EmptiedNotice("organic") == "Organic bin has been emptied!"
  {
  }

  /** The names listed in `names`. */
  function NameSet(names: seq<string>): set<string>
  {
    if names == [] then {} else NameSet(names[..|names| - 1]) + {names[|names| - 1]}
  }

  lemma NameSetAppend(names: seq<string>, b: string)
    ensures NameSet(names + [b]) == NameSet(names) + {b}
  {
    assert (names + [b])[..|names|] == names;
  }

  lemma {:induction false} NameSetHas(names: seq<string>, j: int)
    requires 0 <= j < |names|
    ensures names[j] in NameSet(names)
    decreases |names|
  {
    if j < |names| - 1 {
      NameSetHas(names[..|names| - 1], j);
    }
  }

  lemma {:induction false} NameSetLacks(names: seq<string>, b: string)
    requires forall j :: 0 <= j < |names| ==> names[j] != b
    ensures b !in NameSet(names)
    decreases |names|
  {
    if names != [] {
      NameSetLacks(names[..|names| - 1], b);
    }
  }

  /** In a list of distinct names, `keys[i]` is listed, is not among the names
      before it, and extends them by one. */
  lemma {:induction false} NameSetNext(keys: seq<string>, i: int)
    requires 0 <= i < |keys|
    requires forall a, b :: 0 <= a < b < |keys| ==> keys[a] != keys[b]
    ensures keys[i] in NameSet(keys)
    ensures keys[i] !in NameSet(keys[..i])
    ensures NameSet(keys[..i + 1]) == NameSet(keys[..i]) + {keys[i]}
  {
    var bin := keys[i];
    assert keys[..i + 1] == keys[..i] + [bin];
    NameSetAppend(keys[..i], bin);
    NameSetHas(keys, i);
    forall j | 0 <= j < |keys[..i]| ensures keys[..i][j] != bin {
      assert keys[..i][j] == keys[j];
    }
    NameSetLacks(keys[..i], bin);
  }

  /** Part-way through a tick over `keys`, the bin `keys[i]` is still unvisited:
      it has its original level, and visiting it with its own draw extends the
      progress by that bin. */
  lemma VisitNext(s: Sim, incs: map<string, int>, keys: seq<string>, i: int)
    requires ValidDraws(s.levels, incs)
    requires 0 <= i < |keys| && s.levels.Keys == NameSet(keys)
    requires forall a, b :: 0 <= a < b < |keys| ==> keys[a] != keys[b]
    ensures var p, bin := Progress(s, incs, NameSet(keys[..i])), keys[i];
      && bin in p.levels && p.levels[bin] == s.levels[bin]
      && (p.levels[bin] < Full ==> 1 <= incs[bin] <= 5)
      && VisitBin(p, bin, if p.levels[bin] < Full then incs[bin] else 0)
         == Progress(s, incs, NameSet(keys[..i + 1]))
  {
    NameSetNext(keys, i);
    ProgressVisit(s, incs, NameSet(keys[..i]), keys[i]);
  }

  class Bins {
    /** `Object.keys(binData)`: the bin names in the order a tick visits them. */
    var names: seq<string>
    /** `binData`. */
    var levels: map<string, int>
    /** The cards whose class list holds `warning-shown`. */
    var warned: set<string>
    /** One entry per armed timeout that will clear a card's flag. */
    var timers: multiset<string>

    ghost function State(): Sim
      reads this
    {
      Sim(levels, warned, timers)
    }

    ghost predicate Valid()
      reads this
    {
      && Inv(State())
      && (forall i, j :: 0 <= i < j < |names| ==> names[i] != names[j])
      && levels.Keys == NameSet(names)
    }

    constructor ()
      ensures Valid()
      ensures State() == Seed()
      ensures names == ["plastic", "paper", "organic"]
    {
      NameSetAppend([], "plastic");
      NameSetAppend(["plastic"], "paper");
      NameSetAppend(["plastic", "paper"], "organic");
      names := ["plastic", "paper", "organic"];
      levels := map["plastic" := 75, "paper" := 45, "organic" := 90];
      warned := {};
      timers := multiset{};
    }

    /** `emptyBin`: resets the bin to 0, adding it when the name is new, and
        returns the notification text. */
    method EmptyBin(bin: string) returns (notice: string)
      requires Valid()
      modifies this
      ensures Valid()
      ensures State() == EmptyStep(old(State()), bin)
      ensures names == if bin in old(levels) then old(names) else old(names) + [bin]
      ensures notice == EmptiedNotice(bin)
    {
      if bin !in levels {
        forall j | 0 <= j < |names| ensures names[j] != bin {
          NameSetHas(names, j);
        }
        NameSetAppend(names, bin);
        names := names + [bin];
      }
      levels := levels[bin := 0];
      notice := EmptiedNotice(bin);
    }

    /** `showWarning`: a card not yet flagged gets the flag and a timer to clear
        it; a flagged card, or a bin without a card, is left alone. */
    method ShowWarning(bin: string)
      requires Valid()
      modifies this
      ensures Valid()
      ensures names == old(names)
      ensures State() == ShowStep(old(State()), bin)
    {
      if bin in Cards && bin !in warned {
        MultisetOfDisjointUnion(warned, {bin});
        warned := warned + {bin};
        timers := timers + multiset{bin};
      }
    }

    /** The `forEach` callback of a tick for one bin. */
    method FillBin(bin: string, inc: int)
      requires Valid()
      requires bin in levels
      requires levels[bin] < Full ==> 1 <= inc <= 5
      modifies this
      ensures Valid()
      ensures names == old(names)
      ensures State() == VisitBin(old(State()), bin, inc)
    {
      if levels[bin] < Full {
        levels := levels[bin := Min(levels[bin] + inc, Full)];
        if levels[bin] >= WarnAt {
          ShowWarning(bin);
        }
      }
    }

    /** The interval callback: `FillBin` for every bin, in the order of `names`,
        with the increment drawn for it. */
    method Tick(incs: map<string, int>)
      requires Valid()
      requires ValidDraws(levels, incs)
      modifies this
      ensures Valid()
      ensures names == old(names)
      ensures State() == TickStep(old(State()), incs)
    {
      ghost var s0 := State();
      var keys := names;
      ProgressNone(s0, incs);
      for i := 0 to |keys|
        invariant names == keys
        invariant Valid()
        invariant State() == Progress(s0, incs, NameSet(keys[..i]))
      {
        var bin := keys[i];
        VisitNext(s0, incs, keys, i);
        var inc := if levels[bin] < Full then incs[bin] else 0;
        FillBin(bin, inc);
      }
      assert keys[..|keys|] == keys;
      ProgressAll(s0, incs);
    }

    /** The timeout armed by `showWarning` fires: the flag goes whatever the level. */
    method ClearWarning(bin: string)
      requires Valid()
      requires bin in timers
      modifies this
      ensures Valid()
      ensures names == old(names)
      ensures State() == ClearStep(old(State()), bin)
    {
      ClearKeepsInv(State(), bin);
      warned := warned - {bin};
      timers := timers - multiset{bin};
    }
  }
}
