/** The lives of fair value gaps and order blocks over a whole run of closed candles
    (internal/indicator/market.go:130-230, internal/indicator/market_reducer.go:55-104). */
module ZoneLifecycle {
  import opened Model
  import opened Candles
  import opened Zones
  import opened Market

  /** The market view after a history, as the lane's reducer holds it. */
  function ViewOf(history: seq<Bar>): MarketView { Evaluate(Suffix(history, HISTORY_LIMIT)) }

  function ZonesOf(history: seq<Bar>): seq<PriceZone> { AllZones(ViewOf(history)) }

  function Kinds(ts: seq<ZoneTransition>): (r: seq<Lifecycle>)
    ensures |r| == |ts| && forall i :: 0 <= i < |ts| ==> r[i] == ts[i].transition
  {
    seq(|ts|, i requires 0 <= i < |ts| => ts[i].transition)
  }

  /** The transitions of one zone on the last candle of a history. */
  function LastTransitions(history: seq<Bar>, id: ZoneId): seq<Lifecycle>
    requires history != []
  {
    var before := history[..|history| - 1];
    Kinds(TransitionsFor(ZonesOf(before), ZonesOf(history), history[|history| - 1], id))
  }

  /** Every transition of one zone over a history, in order. */
  function Word(history: seq<Bar>, id: ZoneId): seq<Lifecycle> {
    if history == [] then []
    else Word(history[..|history| - 1], id) + LastTransitions(history, id)
  }

  /** These are the transitions the reducer reports after its last candle. */
  lemma {:induction false} ReducerReports(history: seq<Bar>, id: ZoneId)
    requires history != []
    ensures var reported := MarketOf(history).state.transitions;
            Kinds(if id in reported then reported[id] else []) == LastTransitions(history, id)
  {
    hide Evaluate, TransitionsFor, ById;
    var before, bar := history[..|history| - 1], history[|history| - 1];
    MarketOfTracks(before);
    MarketOfTracks(history);
    var m := MarketOf(before);
    assert MarketOf(history) == CloseBar(m, bar);
    if id !in MarketOf(history).state.transitions {
      NoTransitions(ZonesOf(before), ZonesOf(history), bar, id);
    }
  }

  // ---- Live zones --------------------------------------------------------

  /** Whether the last creation or end in a word is a creation. */
  predicate Alive(word: seq<Lifecycle>) {
    word != [] &&
    var last := word[|word| - 1];
    last == Created || (last == NowTouched && Alive(word[..|word| - 1]))
  }

  ghost predicate OnlyTouches(word: seq<Lifecycle>) {
    forall i :: 0 <= i < |word| ==> word[i] == NowTouched
  }

  lemma {:induction false} AliveConcat(a: seq<Lifecycle>, b: seq<Lifecycle>)
    ensures OnlyTouches(b) ==> (Alive(a + b) <==> Alive(a))
    ensures b != [] && b[|b| - 1] != NowTouched ==> (Alive(a + b) <==> b[|b| - 1] == Created)
  {
    if b == [] {
      assert a + b == a;
    } else {
      assert (a + b)[..|a + b| - 1] == a + b[..|b| - 1];
      AliveConcat(a, b[..|b| - 1]);
    }
  }

  /** What the copies of one identity in the new state report: each the same. */
  ghost predicate AllAre(word: seq<Lifecycle>, t: Lifecycle) {
    forall i :: 0 <= i < |word| ==> word[i] == t
  }

  lemma KindsConcat(a: seq<ZoneTransition>, b: seq<ZoneTransition>)
    ensures Kinds(a + b) == Kinds(a) + Kinds(b)
  {
  }

  lemma {:induction false} AppearanceKinds(before: map<ZoneId, PriceZone>, zones: seq<PriceZone>, at: nat, id: ZoneId)
    requires forall i :: 0 <= i < |zones| ==> zones[i].id == id
    ensures id !in before ==>
              |Appearances(before, zones, at)| == |zones| && AllAre(Kinds(Appearances(before, zones, at)), Created)
    ensures id in before ==> OnlyTouches(Kinds(Appearances(before, zones, at)))
  {
    if zones != [] {
      var rest, last := zones[..|zones| - 1], zones[|zones| - 1];
      AppearanceKinds(before, rest, at, id);
      KindsConcat(Appearances(before, rest, at), Appearance(before, last, at));
    }
  }

  function Named(id: ZoneId): PriceZone -> bool { (z: PriceZone) => z.id == id }

  lemma {:induction false} NamedZones(zones: seq<PriceZone>, id: ZoneId)
    ensures Filter((z: PriceZone) => z.id == id, zones) == Filter(Named(id), zones)
    ensures forall i :: 0 <= i < |Filter(Named(id), zones)| ==>
            Filter(Named(id), zones)[i].id == id && Filter(Named(id), zones)[i] in zones
    ensures id in ById(zones) <==> Filter(Named(id), zones) != []
  {
    hide ById;
    FilterAgrees((z: PriceZone) => z.id == id, Named(id), zones);
    var mine := Filter(Named(id), zones);
    forall i | 0 <= i < |mine| ensures mine[i].id == id && mine[i] in zones {
      FilterMember(Named(id), zones, mine[i]);
    }
    if id in ById(zones) {
      FilterKeeps(Named(id), zones, ById(zones)[id]);
    }
    if mine != [] {
      var k :| 0 <= k < |zones| && zones[k] == mine[0];
    }
  }

  lemma {:induction false} EndingKinds(zone: PriceZone, bar: Bar)
    ensures var kinds := Kinds(Ending(zone, bar));
            kinds != [] && kinds[|kinds| - 1] != NowTouched && kinds[|kinds| - 1] != Created
  {
  }

  /** For every zone and every list of candles: a zone is reported exactly while the last
      transition that created or ended it created it. Live ids are the created minus the ended. */
  lemma {:induction false} LiveZones(history: seq<Bar>, id: ZoneId)
    ensures id in ById(ZonesOf(history)) <==> Alive(Word(history, id))
  {
    hide Evaluate, ById, Filter, Alive, Appearances, Ending;
    if history == [] {
      NothingAlive(id);
    } else {
      var before, bar := history[..|history| - 1], history[|history| - 1];
      var was, now, last := ZonesOf(before), ZonesOf(history), LastTransitions(history, id);
      LiveZones(before, id);
      AliveConcat(Word(before, id), last);
      NamedZones(now, id);
      if id in ById(now) {
        AppearanceKinds(ById(was), Filter(Named(id), now), bar.time, id);
      } else if id in ById(was) {
        EndingKinds(ById(was)[id], bar);
      }
    }
  }

  lemma {:induction false} NothingAlive(id: ZoneId)
    ensures id !in ById(ZonesOf([])) && !Alive([])
  {
    EvaluateNothing();
  }

  /** The automaton of (created touched? (mitigated | invalidated | expired))* with an open tail. */
  datatype Phase = Absent | Fresh | Seen | Broken

  function Next(phase: Phase, t: Lifecycle): Phase {
    match (phase, t)
    case (Absent, Created) => Fresh
    case (Fresh, NowTouched) => Seen
    case (Fresh, Mitigated) => Absent
    case (Fresh, Invalidated) => Absent
    case (Fresh, Expired) => Absent
    case (Seen, Mitigated) => Absent
    case (Seen, Invalidated) => Absent
    case (Seen, Expired) => Absent
    case _ => Broken
  }

  function Read(phase: Phase, word: seq<Lifecycle>): Phase {
    if word == [] then phase else Next(Read(phase, word[..|word| - 1]), word[|word| - 1])
  }

  lemma {:induction false} ReadConcat(phase: Phase, a: seq<Lifecycle>, b: seq<Lifecycle>)
    ensures Read(phase, a + b) == Read(Read(phase, a), b)
  {
    if b == [] {
      assert a + b == a;
    } else {
      assert (a + b)[..|a + b| - 1] == a + b[..|b| - 1];
      ReadConcat(phase, a, b[..|b| - 1]);
    }
  }

  // ---- The zones of a history --------------------------------------------

  /** A zone is identified by its own fields, starts at a candle of the window, and is touched
      exactly when a later candle of the window reached it. */
  ghost predicate ZoneOf(window: seq<Bar>, z: PriceZone) {
    && Placed(window, z)
    && z.state == if TouchedBy(window, z) then Touched else Active
  }

  ghost predicate Placed(window: seq<Bar>, z: PriceZone) {
    && z.id == ZoneId(z.kind, z.side, z.fromTime, z.top, z.bottom)
    && exists i :: 0 <= i < |window| && window[i].time == z.fromTime
  }

  ghost predicate AllClosed(bars: seq<Bar>) {
    forall i :: 0 <= i < |bars| ==> bars[i].closed
  }

  lemma {:induction false} GapsPlaced(window: seq<Bar>, lookback: nat)
    ensures forall z :: z in DetectGaps(window, lookback) ==> z.kind == Gap && Placed(window, z)
  {
    if window != [] {
      hide OpenGaps;
      var lo := GapStart(|window|, lookback);
      OpenGapsTimes(window, lo, |window|);
      var all := AllGaps(window, lookback);
      var stamped := Stamp(all, window[|window| - 1].time);
      forall z | z in stamped ensures z.kind == Gap && Placed(window, z) {
        var k :| 0 <= k < |stamped| && stamped[k] == z;
        assert all[k] in all;
        var i :| lo <= i < |window| && window[i].time == all[k].fromTime;
      }
    }
  }

  lemma {:induction false} BlocksPlaced(window: seq<Bar>, gaps: seq<PriceZone>)
    requires window != []
    ensures forall z :: z in AllBlocks(window, gaps) ==> z.kind == OrderBlock && Placed(window, z)
  {
    if gaps != [] {
      hide BlockIndex, IndexAt;
      BlocksPlaced(window, gaps[..|gaps| - 1]);
      forall z | z in BlockOf(window, gaps[|gaps| - 1]) ensures z.kind == OrderBlock && Placed(window, z) {
        var index := BlockIndex(window, IndexAt(window, gaps[|gaps| - 1].fromTime) - 2, 4, gaps[|gaps| - 1].side).value;
        assert window[index].time == z.fromTime;
      }
    }
  }

  lemma {:induction false} EvaluateClosed(window: seq<Bar>)
    requires AllClosed(window)
    ensures var gaps := DetectGaps(window, DEFAULT_CONFIG.fvgLookback);
            && Evaluate(window).fvgs == Annotate(window, gaps)
            && Evaluate(window).orderBlocks == Annotate(window, DetectBlocks(window, gaps))
  {
    FilterAll(IsClosed, window);
    hide StructuralSwings, Annotate, AllGaps, AllBlocks;
    if window == [] {
      assert Annotate([], []) == [];
    }
  }

  lemma {:induction false} AnnotatedZone(window: seq<Bar>, zones: seq<PriceZone>, kind: ZoneKind)
    requires forall z :: z in zones ==> z.kind == kind && Placed(window, z)
    ensures forall z :: z in Annotate(window, zones) ==> z.kind == kind && ZoneOf(window, z)
  {
    hide TouchedBy;
    var out := Annotate(window, zones);
    forall z | z in out ensures z.kind == kind && ZoneOf(window, z) {
      var k :| 0 <= k < |zones| && out[k] == z;
      assert zones[k] in zones;
      SameTouch(window, zones[k], z);
    }
  }

  lemma {:induction false} SameTouch(bars: seq<Bar>, a: PriceZone, b: PriceZone)
    requires a.top == b.top && a.bottom == b.bottom && a.fromTime == b.fromTime
    ensures TouchedBy(bars, a) <==> TouchedBy(bars, b)
  {
    assert forall i :: 0 <= i < |bars| ==> (Intersects(bars[i], a) <==> Intersects(bars[i], b));
  }

  /** The zones of a view over a window of closed candles. */
  lemma {:induction false} EvaluatedZones(window: seq<Bar>)
    requires AllClosed(window)
    ensures forall z :: z in Evaluate(window).fvgs ==> z.kind == Gap && ZoneOf(window, z)
    ensures forall z :: z in Evaluate(window).orderBlocks ==> z.kind == OrderBlock && ZoneOf(window, z)
  {
    hide Evaluate, DetectGaps, AllBlocks, ZoneOf, Placed;
    var gaps := DetectGaps(window, DEFAULT_CONFIG.fvgLookback);
    EvaluateClosed(window);
    GapsPlaced(window, DEFAULT_CONFIG.fvgLookback);
    AnnotatedZone(window, gaps, Gap);
    if window != [] {
      BlocksPlaced(window, gaps);
    }
    AnnotatedZone(window, DetectBlocks(window, gaps), OrderBlock);
  }

  /** Zones of one window with one identity are in one state. */
  lemma {:induction false} OneState(window: seq<Bar>, a: PriceZone, b: PriceZone)
    requires ZoneOf(window, a) && ZoneOf(window, b) && a.id == b.id
    ensures a.state == b.state
  {
    SameTouch(window, a, b);
  }

  // ---- One identity at a time --------------------------------------------

  /** The zone with an identity, if the list has one. */
  function Lookup(zones: seq<PriceZone>, id: ZoneId): Option<PriceZone> {
    if id in ById(zones) then Some(ById(zones)[id]) else None
  }

  lemma LookupIsStored(zones: seq<PriceZone>, id: ZoneId)
    ensures Lookup(zones, id).Some? ==> Lookup(zones, id).value in zones && Lookup(zones, id).value.id == id
    ensures Lookup(zones, id).Some? <==> id in ById(zones)
  {
  }

  /** What one candle reports about a zone, from its state before and after. */
  function Report(before: Option<PriceZone>, after: Option<PriceZone>, bar: Bar): seq<Lifecycle> {
    match (before, after)
    case (None, None) => []
    case (None, Some(_)) => [Created]
    case (Some(b), Some(a)) => if b.state != Touched && a.state == Touched then [NowTouched] else []
    case (Some(b), None) => Kinds(Ending(b, bar))
  }

  /** Two gaps may share an order block, which is then reported twice. */
  function Collapsed(word: seq<Lifecycle>): seq<Lifecycle> {
    if |word| <= 1 then word
    else
      var rest := Collapsed(word[..|word| - 1]);
      if word[|word| - 2] == word[|word| - 1] then rest else rest + [word[|word| - 1]]
  }

  lemma {:induction false} CollapsedCopies(word: seq<Lifecycle>, t: Lifecycle)
    requires word != [] && AllAre(word, t)
    ensures Collapsed(word) == [t]
  {
    if |word| == 1 {
      assert word == [t];
    } else {
      CollapsedCopies(word[..|word| - 1], t);
    }
  }

  lemma {:induction false} CollapsedEnding(zone: PriceZone, bar: Bar)
    ensures Collapsed(Kinds(Ending(zone, bar))) == Kinds(Ending(zone, bar))
  {
    var word := Kinds(Ending(zone, bar));
    if |word| == 2 {
      assert Collapsed(word[..1]) == word[..1];
    }
  }

  lemma {:induction false} CopiesReport(
    before: map<ZoneId, PriceZone>, zones: seq<PriceZone>, at: nat, id: ZoneId, state: ZoneState)
    requires forall i :: 0 <= i < |zones| ==> zones[i].id == id && zones[i].state == state
    ensures var word := Kinds(Appearances(before, zones, at));
            && (id !in before ==> |word| == |zones| && AllAre(word, Created))
            && (id in before && before[id].state != Touched && state == Touched ==> |word| == |zones| && AllAre(word, NowTouched))
            && (id in before && (before[id].state == Touched || state != Touched) ==> word == [])
  {
    if zones != [] {
      var rest, last := zones[..|zones| - 1], zones[|zones| - 1];
      CopiesReport(before, rest, at, id, state);
      KindsConcat(Appearances(before, rest, at), Appearance(before, last, at));
    }
  }

  /** One candle, one zone: what is reported, repeats of shared blocks aside. */
  lemma {:induction false} ZoneReport(was: seq<PriceZone>, now: seq<PriceZone>, bar: Bar, id: ZoneId)
    requires forall z :: z in now && z.id == id ==> z.state == Lookup(now, id).value.state
    ensures Collapsed(Kinds(TransitionsFor(was, now, bar, id))) == Report(Lookup(was, id), Lookup(now, id), bar)
  {
    hide ById, Filter, Appearances, Ending, Collapsed;
    NamedZones(now, id);
    var mine, word := Filter(Named(id), now), Kinds(TransitionsFor(was, now, bar, id));
    CollapsedNothing();
    if id in ById(now) {
      var state := ById(now)[id].state;
      forall i | 0 <= i < |mine| ensures mine[i].state == state {
        assert mine[i] in now;
      }
      CopiesReport(ById(was), mine, bar.time, id, state);
      if word != [] {
        CollapsedCopies(word, word[0]);
      }
    } else if id in ById(was) {
      CollapsedEnding(ById(was)[id], bar);
    }
  }

  lemma CollapsedNothing()
    ensures Collapsed([]) == []
  {
  }

  /** The automaton phase a stored zone allows. */
  ghost predicate Agrees(phase: Phase, stored: Option<PriceZone>) {
    match stored
    case None => phase == Absent
    case Some(z) => phase == Fresh || (phase == Seen && z.state == Touched)
  }

  lemma {:induction false} ReportKeeps(phase: Phase, before: Option<PriceZone>, after: Option<PriceZone>, bar: Bar)
    requires Agrees(phase, before)
    requires before.Some? && after.Some? && before.value.state == Touched ==> after.value.state == Touched
    ensures Agrees(Read(phase, Report(before, after, bar)), after)
  {
    hide Read;
    var word := Report(before, after, bar);
    ReadNothing(phase);
    if |word| == 1 {
      assert word == [word[0]];
      ReadOne(phase, word[0]);
    } else if |word| == 2 {
      assert word == [word[0], word[1]];
      ReadTwo(phase, word[0], word[1]);
    }
  }

  lemma ReadNothing(phase: Phase)
    ensures Read(phase, []) == phase
  {
  }

  lemma {:induction false} ReadOne(phase: Phase, t: Lifecycle)
    ensures Read(phase, [t]) == Next(phase, t)
  {
    assert [t][..0] == [];
  }

  lemma {:induction false} ReadTwo(phase: Phase, t: Lifecycle, u: Lifecycle)
    ensures Read(phase, [t, u]) == Next(Next(phase, t), u)
  {
    assert [t, u][..1] == [t];
    ReadOne(phase, t);
  }

  // ---- Touches persist ---------------------------------------------------

  /** A window of all but the first candles. */
  lemma {:induction false} WindowIndex(all: seq<Bar>, n: nat, i: nat)
    requires i < |Suffix(all, n)|
    ensures Suffix(all, n)[i] == all[|all| - |Suffix(all, n)| + i]
  {
  }

  lemma {:induction false} LaterIsInWindow(all: seq<Bar>, n: nat, g: nat, at: nat)
    requires StrictlyIncreasing(all) && g < |Suffix(all, n)| && at < |all| && all[at].time > Suffix(all, n)[g].time
    ensures all[at] in Suffix(all, n)
  {
    var now := Suffix(all, n);
    var from := |all| - |now|;
    WindowIndex(all, n, g);
    assert at > from + g;
    WindowIndex(all, n, at - from);
  }

  /** A touched zone that is still reported after one more candle is still touched: the candle
      that touched it came after the zone, so it has not left the window before the zone did. */
  lemma {:induction false} TouchPersists(history: seq<Bar>, bar: Bar, before: PriceZone, after: PriceZone)
    requires StrictlyIncreasing(history + [bar])
    requires ZoneOf(Suffix(history, HISTORY_LIMIT), before) && ZoneOf(Suffix(history + [bar], HISTORY_LIMIT), after)
    requires before.id == after.id && before.state == Touched
    ensures after.state == Touched
  {
    hide Suffix, StrictlyIncreasing;
    var was, now, all := Suffix(history, HISTORY_LIMIT), Suffix(history + [bar], HISTORY_LIMIT), history + [bar];
    var i :| 0 <= i < |was| && Intersects(was[i], before);
    var g :| 0 <= g < |now| && now[g].time == after.fromTime;
    WindowIndex(history, HISTORY_LIMIT, i);
    var at := |history| - |was| + i;
    assert all[at] == history[at];
    LaterIsInWindow(all, HISTORY_LIMIT, g, at);
    var j :| 0 <= j < |now| && now[j] == all[at];
    assert Intersects(now[j], after);
  }

  lemma {:induction false} WindowShape(key: SeriesKey, history: seq<Bar>)
    requires History(key, history)
    ensures AllClosed(Suffix(history, HISTORY_LIMIT)) && StrictlyIncreasing(Suffix(history, HISTORY_LIMIT))
  {
  }

  lemma {:induction false} ZonesAreOf(key: SeriesKey, history: seq<Bar>)
    requires History(key, history)
    ensures forall z :: z in ZonesOf(history) ==> ZoneOf(Suffix(history, HISTORY_LIMIT), z)
  {
    hide Evaluate, ZoneOf;
    WindowShape(key, history);
    EvaluatedZones(Suffix(history, HISTORY_LIMIT));
  }

  lemma {:induction false} LastReport(key: SeriesKey, history: seq<Bar>, id: ZoneId)
    requires History(key, history) && history != []
    ensures Collapsed(LastTransitions(history, id)) ==
            Report(Lookup(ZonesOf(history[..|history| - 1]), id), Lookup(ZonesOf(history), id), history[|history| - 1])
  {
    hide ZonesOf, Report, TransitionsFor, Lookup, History, ZoneOf, Collapsed;
    var now := ZonesOf(history);
    ZonesAreOf(key, history);
    LookupIsStored(now, id);
    forall z | z in now && z.id == id ensures z.state == Lookup(now, id).value.state {
      MemberIsNamed(now, z);
      OneState(Suffix(history, HISTORY_LIMIT), z, Lookup(now, id).value);
    }
    ZoneReport(ZonesOf(history[..|history| - 1]), now, history[|history| - 1], id);
  }

  lemma MemberIsNamed(zones: seq<PriceZone>, z: PriceZone)
    requires z in zones
    ensures Lookup(zones, z.id).Some?
  {
  }

  lemma {:induction false} TouchPersistsById(key: SeriesKey, history: seq<Bar>, id: ZoneId)
    requires History(key, history) && history != []
    requires Lookup(ZonesOf(history[..|history| - 1]), id).Some? && Lookup(ZonesOf(history), id).Some?
    requires Lookup(ZonesOf(history[..|history| - 1]), id).value.state == Touched
    ensures Lookup(ZonesOf(history), id).value.state == Touched
  {
    hide ZonesOf, ZoneOf, Lookup;
    var before, bar := history[..|history| - 1], history[|history| - 1];
    HistoryPrefix(key, history, |history| - 1);
    ZonesAreOf(key, before);
    ZonesAreOf(key, history);
    LookupIsStored(ZonesOf(before), id);
    LookupIsStored(ZonesOf(history), id);
    assert before + [bar] == history;
    TouchPersists(before, bar, Lookup(ZonesOf(before), id).value, Lookup(ZonesOf(history), id).value);
  }

  // ---- Every zone's life -------------------------------------------------

  /** Every transition of a zone over a history, a repeat within one candle counted once. */
  function Life(history: seq<Bar>, id: ZoneId): seq<Lifecycle> {
    if history == [] then []
    else Life(history[..|history| - 1], id) + Collapsed(LastTransitions(history, id))
  }

  /** Over any history every gap and every order block lives by (created touched? terminal)* with
      an open tail, and is reported exactly while its last life is open. */
  lemma {:induction false} ZoneLives(key: SeriesKey, history: seq<Bar>, id: ZoneId)
    requires History(key, history)
    ensures Agrees(Read(Absent, Life(history, id)), Lookup(ZonesOf(history), id))
    ensures Read(Absent, Life(history, id)) != Broken
    ensures Read(Absent, Life(history, id)) != Absent <==> id in ById(ZonesOf(history))
  {
    hide ZonesOf, Report, LastTransitions, Collapsed, ById, Read, History;
    var stored := Lookup(ZonesOf(history), id);
    if history == [] {
      NothingStored(id);
      ReadNothing(Absent);
    } else {
      var before := history[..|history| - 1];
      HistoryPrefix(key, history, |history| - 1);
      ZoneLives(key, before, id);
      ReadConcat(Absent, Life(before, id), Collapsed(LastTransitions(history, id)));
      LastReport(key, history, id);
      var earlier := Lookup(ZonesOf(before), id);
      if earlier.Some? && stored.Some? && earlier.value.state == Touched {
        TouchPersistsById(key, history, id);
      }
      ReportKeeps(Read(Absent, Life(before, id)), earlier, stored, history[|history| - 1]);
    }
  }

  lemma {:induction false} NothingStored(id: ZoneId)
    ensures Lookup(ZonesOf([]), id) == None
  {
    EvaluateNothing();
  }

  // ---- Gaps are reported once --------------------------------------------

  ghost predicate DistinctTimes(zones: seq<PriceZone>) {
    forall i, j :: 0 <= i < j < |zones| ==> zones[i].fromTime < zones[j].fromTime
  }

  lemma {:induction false} GapIfOpenShape(bars: seq<Bar>, index: nat)
    requires 2 <= index < |bars|
    ensures |GapIfOpen(bars, index)| <= 1
    ensures forall i :: 0 <= i < |GapIfOpen(bars, index)| ==> GapIfOpen(bars, index)[i].fromTime == bars[index].time
  {
    hide GapAt;
  }

  lemma {:induction false} OpenGapsInOrder(bars: seq<Bar>, lo: nat, hi: nat)
    requires 2 <= lo && hi <= |bars| && StrictlyIncreasing(bars)
    ensures DistinctTimes(OpenGaps(bars, lo, hi))
  {
    hide GapIfOpen, IsGapZone;
    if hi > lo {
      OpenGapsInOrder(bars, lo, hi - 1);
      OpenGapsTimes(bars, lo, hi - 1);
      GapIfOpenShape(bars, hi - 1);
      var rest := OpenGaps(bars, lo, hi - 1);
      forall i | 0 <= i < |rest| ensures rest[i].fromTime < bars[hi - 1].time {
        assert rest[i] in rest;
        var k :| lo <= k < hi - 1 && bars[k].time == rest[i].fromTime;
      }
    }
  }

  lemma {:induction false} GapsInOrder(window: seq<Bar>)
    requires StrictlyIncreasing(window) && AllClosed(window)
    ensures DistinctTimes(Evaluate(window).fvgs)
  {
    hide Evaluate, OpenGaps, StrictlyIncreasing;
    EvaluateClosed(window);
    if window != [] {
      OpenGapsInOrder(window, GapStart(|window|, DEFAULT_CONFIG.fvgLookback), |window|);
    }
  }

  lemma {:induction false} AtMostOne(zones: seq<PriceZone>, id: ZoneId)
    requires DistinctTimes(zones) && forall i :: 0 <= i < |zones| ==> zones[i].id.time == zones[i].fromTime
    ensures |Filter(Named(id), zones)| <= 1
  {
    if zones != [] {
      var rest, z := zones[..|zones| - 1], zones[|zones| - 1];
      AtMostOne(rest, id);
      if z.id == id {
        assert forall k :: 0 <= k < |rest| ==> rest[k].fromTime == zones[k].fromTime < z.fromTime;
        FilterNone(Named(id), rest);
      }
    }
  }

  lemma {:induction false} OneGap(key: SeriesKey, history: seq<Bar>, id: ZoneId)
    requires History(key, history) && id.kind == Gap
    ensures |Filter(Named(id), ZonesOf(history))| <= 1
  {
    hide Evaluate, TouchedBy, DistinctTimes, Filter, Suffix;
    var window, view := Suffix(history, HISTORY_LIMIT), ViewOf(history);
    WindowShape(key, history);
    EvaluatedZones(window);
    GapsInOrder(window);
    FilterConcat(Named(id), view.fvgs, view.orderBlocks);
    forall z | z in view.orderBlocks ensures !Named(id)(z) {
    }
    FilterNone(Named(id), view.orderBlocks);
    forall i | 0 <= i < |view.fvgs| ensures view.fvgs[i].id.time == view.fvgs[i].fromTime {
      assert view.fvgs[i] in view.fvgs;
    }
    AtMostOne(view.fvgs, id);
  }

  lemma {:induction false} GapReportsOnce(key: SeriesKey, history: seq<Bar>, id: ZoneId)
    requires History(key, history) && history != [] && id.kind == Gap
    ensures Collapsed(LastTransitions(history, id)) == LastTransitions(history, id)
  {
    hide ZonesOf, ById, Filter, Appearances, Ending, History;
    var was, now, bar := ZonesOf(history[..|history| - 1]), ZonesOf(history), history[|history| - 1];
    OneGap(key, history, id);
    NamedZones(now, id);
    if id in ById(now) {
      AppearancesAtMost(ById(was), Filter(Named(id), now), bar.time);
    } else if id in ById(was) {
      CollapsedEnding(ById(was)[id], bar);
    }
  }

  lemma {:induction false} AppearancesAtMost(before: map<ZoneId, PriceZone>, zones: seq<PriceZone>, at: nat)
    ensures |Appearances(before, zones, at)| <= |zones|
  {
    if zones != [] {
      AppearancesAtMost(before, zones[..|zones| - 1], at);
    }
  }

  lemma {:induction false} GapLifeIsWord(key: SeriesKey, history: seq<Bar>, id: ZoneId)
    requires History(key, history) && id.kind == Gap
    ensures Life(history, id) == Word(history, id)
  {
    hide LastTransitions, Collapsed, History;
    if history != [] {
      HistoryPrefix(key, history, |history| - 1);
      GapLifeIsWord(key, history[..|history| - 1], id);
      GapReportsOnce(key, history, id);
    }
  }

  /** A gap's transitions as reported, nothing collapsed. */
  lemma {:induction false} GapLifecycle(key: SeriesKey, history: seq<Bar>, id: ZoneId)
    requires History(key, history) && id.kind == Gap
    ensures Read(Absent, Word(history, id)) != Broken
    ensures Read(Absent, Word(history, id)) != Absent <==> exists z :: z in ViewOf(history).fvgs && z.id == id
  {
    hide Evaluate, ById, Filter, Read, Word, Life;
    GapLifeIsWord(key, history, id);
    ZoneLives(key, history, id);
    NamedZones(ZonesOf(history), id);
    WindowShape(key, history);
    EvaluatedZones(Suffix(history, HISTORY_LIMIT));
    var mine := Filter(Named(id), ZonesOf(history));
    if mine != [] {
      assert mine[0] in ViewOf(history).fvgs;
    }
    if z :| z in ViewOf(history).fvgs && z.id == id {
      FilterKeeps(Named(id), ZonesOf(history), z);
    }
  }
}
