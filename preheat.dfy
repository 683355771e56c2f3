/** The preheat pass of tool-wizard: a per-tool state machine over the set of
    tools that are heating. On every record with a known active tool it
    starts heating the tools needed within the preheat horizon, drops to idle
    temperature the ones needed later, turns off the ones never needed again,
    and records one heater line per tool whose state changes. */
module Preheat {
  import opened GCode

  // ---------------------------------------------------------------------------
  // Specification

  /** Tool t is next needed within the preheat horizon of the record. */
  predicate Soon(f: Facts, t: int)
    requires t in f.timeNextNeeded
  {
    f.timeNextNeeded[t] - f.time <= PreheatTime
  }

  /** The heating set a record with active tool `a` starts from: the previous
      record's, or only the active tool when the previous record has none. */
  function Inherited(prev: Facts, a: int): set<int> {
    if prev.heating.Some? then prev.heating.value else {a}
  }

  /** The heating set a record ends with: the active tool as inherited, every
      other tool heating exactly when it is needed within the horizon. */
  function Heating(h0: set<int>, f: Facts, a: int): (h: set<int>)
    ensures forall t :: t in h <==> if t == a then t in h0 else t in f.timeNextNeeded && Soon(f, t)
  {
    set t | t in h0 + f.timeNextNeeded.Keys && (if t == a then t in h0 else t in f.timeNextNeeded && Soon(f, t))
  }

  /** Tool t changes state on the record: it is not the active tool, and it
      either starts or stops heating. */
  predicate Changed(t: int, h0: set<int>, f: Facts, a: int) {
    t != a && if t in f.timeNextNeeded then (t in h0) != Soon(f, t) else t in h0
  }

  /** The pass does not fail on the record: every tool other than the active
      one that will be needed has a next temperature. */
  predicate PreheatDefined(c: Command) {
    c.facts.activeTool.Some? ==>
      forall t :: t in c.facts.timeNextNeeded && t != c.facts.activeTool.value ==> t in c.facts.nextTemp
  }

  /** The heater line announcing a change of tool t: its next temperature when
      it starts heating, that temperature less the idle delta when it stops
      heating but is still needed, and off when it is never needed again. */
  function ChangeLine(t: int, h0: set<int>, f: Facts): (l: Line)
    requires t in f.timeNextNeeded ==> t in f.nextTemp
    ensures l.Heater() && l.tool == t
    ensures l.ToolOff? <==> t !in f.timeNextNeeded
  {
    if t !in f.timeNextNeeded then ToolOff(t)
    else if t in h0 then SetTemp(t, f.nextTemp[t] - IdleTempDelta)
    else SetTemp(t, f.nextTemp[t])
  }

  /** The line announcing a change says which way the tool goes: a tool that
      starts heating is set to its next temperature, a tool that stops heating
      but is needed later is set that temperature less the idle delta, and a
      tool never needed again is turned off. */
  lemma ChangeLineMeans(t: int, h0: set<int>, f: Facts, a: int)
    requires forall u :: u in f.timeNextNeeded && u != a ==> u in f.nextTemp
    requires Changed(t, h0, f, a)
    ensures var l, h := ChangeLine(t, h0, f), Heating(h0, f, a);
      && (t !in h0 ==> t in h && t in f.nextTemp && l == SetTemp(t, f.nextTemp[t]))
      && (t in h0 && t in f.timeNextNeeded ==> t !in h && t in f.nextTemp && l == SetTemp(t, f.nextTemp[t] - IdleTempDelta))
      && (t !in f.timeNextNeeded ==> t in h0 && t !in h && l == ToolOff(t))
  {
  }

  /** Heater lines, about pairwise distinct tools. */
  predicate DistinctTools(ems: seq<Line>) {
    && (forall i :: 0 <= i < |ems| ==> ems[i].Heater())
    && (forall i, j :: 0 <= i < j < |ems| ==> ems[i].tool != ems[j].tool)
  }

  /** The tools named by some heater lines. */
  function Tools(ems: seq<Line>): (ts: set<int>)
    requires forall i :: 0 <= i < |ems| ==> ems[i].Heater()
    ensures forall i :: 0 <= i < |ems| ==> ems[i].Heater() && ems[i].tool in ts
  {
    if |ems| == 0 then {}
    else
      var last := ems[|ems| - 1];
      assert last.Heater();
      Tools(ems[..|ems| - 1]) + {last.tool}
  }

  /** Heater lines about distinct tools, each announcing a change of its tool
      with the line for that change. */
  ghost predicate Told(ems: seq<Line>, h0: set<int>, f: Facts, a: int)
    requires forall t :: t in f.timeNextNeeded && t != a ==> t in f.nextTemp
  {
    && DistinctTools(ems)
    && forall i :: 0 <= i < |ems| ==> Changed(ems[i].tool, h0, f, a) && ems[i] == ChangeLine(ems[i].tool, h0, f)
  }

  /** `ems` announces exactly the tools that change state, once each, each
      with its change line. */
  ghost predicate Announces(ems: seq<Line>, h0: set<int>, f: Facts, a: int)
    requires forall t :: t in f.timeNextNeeded && t != a ==> t in f.nextTemp
  {
    && Told(ems, h0, f, a)
    && forall t :: t in Tools(ems) <==> Changed(t, h0, f, a)
  }

  /** `r` is the record `c` after the preheat pass, `prev` being the facts of
      the record before it: unchanged while no tool is known; otherwise its
      heating set is settled and the changes are announced after its
      existing post-lines. */
  ghost predicate Preheated(c: Command, prev: Facts, r: Command)
    requires PreheatDefined(c)
  {
    if c.facts.activeTool.None? then r == c
    else
      var a := c.facts.activeTool.value;
      var h0 := Inherited(prev, a);
      && r.raw == c.raw && r.cmd == c.cmd && r.args == c.args && r.magicPre == c.magicPre
      && r.facts == c.facts.(heating := Some(Heating(h0, c.facts, a)))
      && |c.magicPost| <= |r.magicPost| && r.magicPost[..|c.magicPost|] == c.magicPost
      && Announces(r.magicPost[|c.magicPost|..], h0, c.facts, a)
  }

  // ---------------------------------------------------------------------------
  // The pass on one record: prop_preheat

  lemma ToolsSnoc(ems: seq<Line>, x: Line)
    requires (forall i :: 0 <= i < |ems| ==> ems[i].Heater()) && x.Heater()
    ensures Tools(ems + [x]) == Tools(ems) + {x.tool}
  {
    assert (ems + [x])[..|ems|] == ems;
  }

  /** The state of the first loop of the step once the tools of `todo` are
      left to visit. */
  ghost predicate Settling(f: Facts, a: int, h0: set<int>, todo: set<int>, heating: set<int>, ems: seq<Line>)
    requires forall t :: t in f.timeNextNeeded && t != a ==> t in f.nextTemp
  {
    && todo <= f.timeNextNeeded.Keys
    && (forall t :: t in heating <==> if t != a && t in f.timeNextNeeded && t !in todo then Soon(f, t) else t in h0)
    && Told(ems, h0, f, a)
    && (forall i :: 0 <= i < |ems| ==> ems[i].tool in f.timeNextNeeded && ems[i].tool !in todo)
    && (forall t :: t in Tools(ems) <==> t in f.timeNextNeeded && t !in todo && Changed(t, h0, f, a))
  }

  /** Visiting tool t of `todo` settles it and announces it if it changed. */
  lemma SettleStep(f: Facts, a: int, h0: set<int>, todo: set<int>, heating: set<int>, ems: seq<Line>,
                   t: int, heating': set<int>, ems': seq<Line>)
    requires forall u :: u in f.timeNextNeeded && u != a ==> u in f.nextTemp
    requires Settling(f, a, h0, todo, heating, ems) && t in todo
    requires forall u :: u in heating' <==> if u == t && t != a then Soon(f, t) else u in heating
    requires ems' == ems + if t != a && (t in heating) != Soon(f, t) then [ChangeLine(t, heating, f)] else []
    ensures Settling(f, a, h0, todo - {t}, heating', ems')
  {
    assert (t in heating) == (t in h0);
    if Changed(t, h0, f, a) {
      assert ChangeLine(t, heating, f) == ChangeLine(t, h0, f);
      ToolsSnoc(ems, ChangeLine(t, h0, f));
    } else {
      assert ems' == ems;
    }
  }

  /** The state of the second loop of the step once the tools of `turnOff`
      are left to visit. */
  ghost predicate TurningOff(f: Facts, a: int, h0: set<int>, turnOff: set<int>, heating: set<int>, ems: seq<Line>)
    requires forall t :: t in f.timeNextNeeded && t != a ==> t in f.nextTemp
  {
    && turnOff <= h0 && (forall t :: t in turnOff ==> t !in f.timeNextNeeded)
    && (forall t :: t in heating <==> if t == a then t in h0 else if t in f.timeNextNeeded then Soon(f, t) else t in turnOff)
    && Told(ems, h0, f, a)
    && (forall i :: 0 <= i < |ems| ==> ems[i].tool !in turnOff)
    && (forall t :: t in Tools(ems) <==> Changed(t, h0, f, a) && (t in f.timeNextNeeded || t !in turnOff))
  }

  /** Once every needed tool is settled, the heating tools that are not needed
      are the ones left to turn off. */
  lemma StartTurningOff(f: Facts, a: int, h0: set<int>, heating: set<int>, ems: seq<Line>, turnOff: set<int>)
    requires forall u :: u in f.timeNextNeeded && u != a ==> u in f.nextTemp
    requires Settling(f, a, h0, {}, heating, ems)
    requires forall t :: t in turnOff <==> t in heating && t !in f.timeNextNeeded
    ensures TurningOff(f, a, h0, turnOff, heating, ems)
  {
    forall t | t in turnOff
      ensures t in h0
    {
      assert t in heating;
    }
  }

  /** Visiting tool t of `turnOff` turns it off and announces it, unless it is
      the active tool. */
  lemma TurnOffStep(f: Facts, a: int, h0: set<int>, turnOff: set<int>, heating: set<int>, ems: seq<Line>,
                    t: int, heating': set<int>, ems': seq<Line>)
    requires forall u :: u in f.timeNextNeeded && u != a ==> u in f.nextTemp
    requires TurningOff(f, a, h0, turnOff, heating, ems) && t in turnOff
    requires heating' == if t != a then heating - {t} else heating
    requires ems' == ems + if t != a then [ToolOff(t)] else []
    ensures TurningOff(f, a, h0, turnOff - {t}, heating', ems')
  {
    if t != a {
      ToolsSnoc(ems, ToolOff(t));
    } else {
      assert ems' == ems;
    }
  }

  /** When every heating tool that is not needed has been visited, the heating
      set is settled and every change is announced. */
  lemma Settled(f: Facts, a: int, h0: set<int>, heating: set<int>, ems: seq<Line>)
    requires forall u :: u in f.timeNextNeeded && u != a ==> u in f.nextTemp
    requires TurningOff(f, a, h0, {}, heating, ems)
    ensures heating == Heating(h0, f, a)
    ensures Announces(ems, h0, f, a)
  {
    assert forall t :: t in heating <==> t in Heating(h0, f, a);
  }

  /** Settles one needed tool: a tool other than the active one whose heating
      state disagrees with the horizon flips, and the flip is announced. */
  method SettleTool(f: Facts, a: int, t: int, heating: set<int>, ems: seq<Line>) returns (heating': set<int>, ems': seq<Line>)
    requires t in f.timeNextNeeded && (t != a ==> t in f.nextTemp)
    ensures forall u :: u in heating' <==> if u == t && t != a then Soon(f, t) else u in heating
    ensures ems' == ems + if t != a && (t in heating) != Soon(f, t) then [ChangeLine(t, heating, f)] else []
  {
    heating', ems' := heating, ems;
    if t != a {
      var timeTillNeeded := f.timeNextNeeded[t] - f.time;
      var nextTemp := f.nextTemp[t];
      if t !in heating && timeTillNeeded <= PreheatTime {
        heating' := heating + {t};
        ems' := ems + [SetTemp(t, nextTemp)];
      } else if t in heating && timeTillNeeded > PreheatTime {
        heating' := heating - {t};
        ems' := ems + [SetTemp(t, nextTemp - IdleTempDelta)];
      }
    }
  }

  /** A set that is not empty has a member to pick. */
  lemma Inhabited(s: set<int>)
    requires s != {}
    ensures exists t :: t in s
  {
    if forall t :: t !in s {
      assert false;
    }
  }

  /** The first loop of the step: visits every needed tool once. */
  method SettleNeeded(f: Facts, a: int, h0: set<int>) returns (heating: set<int>, ems: seq<Line>)
    requires forall t :: t in f.timeNextNeeded && t != a ==> t in f.nextTemp
    ensures Settling(f, a, h0, {}, heating, ems)
  {
    heating, ems := h0, [];
    var todo := f.timeNextNeeded.Keys;
    while todo != {}
      invariant Settling(f, a, h0, todo, heating, ems)
      decreases |todo|
    {
      Inhabited(todo);
      var t :| t in todo;
      ghost var (heating0, ems0, todo0) := (heating, ems, todo);
      todo := todo - {t};
      heating, ems := SettleTool(f, a, t, heating, ems);
      SettleStep(f, a, h0, todo0, heating0, ems0, t, heating, ems);
    }
  }

  /** The second loop of the step: turns off every heating tool that is never
      needed again, except the active one. */
  method TurnOffUnneeded(f: Facts, a: int, h0: set<int>, heating: set<int>, ems: seq<Line>) returns (heating': set<int>, ems': seq<Line>)
    requires forall t :: t in f.timeNextNeeded && t != a ==> t in f.nextTemp
    requires Settling(f, a, h0, {}, heating, ems)
    ensures heating' == Heating(h0, f, a) && Announces(ems', h0, f, a)
  {
    heating', ems' := heating, ems;
    var turnOff := set t | t in heating && t !in f.timeNextNeeded;
    StartTurningOff(f, a, h0, heating, ems, turnOff);
    while turnOff != {}
      invariant TurningOff(f, a, h0, turnOff, heating', ems')
      decreases |turnOff|
    {
      Inhabited(turnOff);
      var t :| t in turnOff;
      ghost var (heating0, ems0, turnOff0) := (heating', ems', turnOff);
      turnOff := turnOff - {t};
      if t != a {
        heating' := heating' - {t};
        ems' := ems' + [ToolOff(t)];
      }
      TurnOffStep(f, a, h0, turnOff0, heating0, ems0, t, heating', ems');
    }
    Settled(f, a, h0, heating', ems');
  }

  /** The preheat step on one record: settles each needed tool in turn, then
      turns off every heating tool that is never needed again. */
  method PreheatStep(c: Command, prev: Facts) returns (r: Command)
    requires PreheatDefined(c)
    ensures Preheated(c, prev, r)
  {
    if c.facts.activeTool.None? {
      return c;
    }
    var f := c.facts;
    var a := f.activeTool.value;
    var h0 := if prev.heating.Some? then prev.heating.value else {a};
    var heating, ems := SettleNeeded(f, a, h0);
    heating, ems := TurnOffUnneeded(f, a, h0, heating, ems);
    r := c.(facts := f.(heating := Some(heating)), magicPost := c.magicPost + ems);
    assert r.magicPost[..|c.magicPost|] == c.magicPost && r.magicPost[|c.magicPost|..] == ems;
  }

  // ---------------------------------------------------------------------------
  // Properties of the step

  /** A tool no line names is not among the lines' tools. */
  lemma {:induction false} ToolsOnly(ems: seq<Line>, t: int)
    requires forall i :: 0 <= i < |ems| ==> ems[i].Heater() && ems[i].tool != t
    ensures t !in Tools(ems)
  {
    if |ems| > 0 {
      ToolsOnly(ems[..|ems| - 1], t);
    }
  }

  /** Lines about distinct tools name as many tools as there are lines. */
  lemma {:induction false} DistinctCount(ems: seq<Line>)
    requires DistinctTools(ems)
    ensures |Tools(ems)| == |ems|
  {
    if |ems| > 0 {
      var init, last := ems[..|ems| - 1], ems[|ems| - 1];
      DistinctCount(init);
      ToolsOnly(init, last.tool);
    }
  }

  /** A tool changes state exactly when it is in one of the heating sets
      before and after the step but not in the other. */
  lemma ChangedFlips(t: int, h0: set<int>, f: Facts, a: int)
    ensures Changed(t, h0, f, a) <==> ((t in h0) != (t in Heating(h0, f, a)))
  {
  }

  /** The announced tools are the symmetric difference of the heating sets
      before and after the step, so there is one line per tool that starts or
      stops heating. */
  lemma AnnouncedFlips(ems: seq<Line>, h0: set<int>, f: Facts, a: int)
    requires forall t :: t in f.timeNextNeeded && t != a ==> t in f.nextTemp
    requires Announces(ems, h0, f, a)
    ensures Tools(ems) == (h0 - Heating(h0, f, a)) + (Heating(h0, f, a) - h0)
    ensures |ems| == |(h0 - Heating(h0, f, a)) + (Heating(h0, f, a) - h0)|
  {
    var h := Heating(h0, f, a);
    forall t
      ensures t in Tools(ems) <==> t in (h0 - h) + (h - h0)
    {
      ChangedFlips(t, h0, f, a);
    }
    DistinctCount(ems);
  }

  /** A step whose heating set stays as it was announces nothing. */
  lemma QuietWhenSettled(ems: seq<Line>, h0: set<int>, f: Facts, a: int)
    requires forall t :: t in f.timeNextNeeded && t != a ==> t in f.nextTemp
    requires Announces(ems, h0, f, a) && Heating(h0, f, a) == h0
    ensures ems == []
  {
    AnnouncedFlips(ems, h0, f, a);
    assert (h0 - h0) + (h0 - h0) == {};
  }

  /** A settled heating set stays settled on a record with the same time and
      the same next uses, apart from the active tool's. */
  lemma HeatingSettled(h0: set<int>, f: Facts, g: Facts, a: int)
    requires g.time == f.time
    requires forall t :: t != a ==> (t in g.timeNextNeeded <==> t in f.timeNextNeeded)
    requires forall t :: t != a && t in g.timeNextNeeded ==> g.timeNextNeeded[t] == f.timeNextNeeded[t]
    ensures Heating(Heating(h0, f, a), g, a) == Heating(h0, f, a)
  {
  }

  /** The step never changes the active tool's heating state and never names
      it; on the first record with a known tool the active tool is heating. */
  lemma ActiveUntouched(c: Command, prev: Facts, r: Command)
    requires PreheatDefined(c) && Preheated(c, prev, r) && c.facts.activeTool.Some?
    ensures var a := c.facts.activeTool.value;
      && r.facts.heating.Some?
      && (a in r.facts.heating.value <==> a in Inherited(prev, a))
      && (prev.heating.None? ==> a in r.facts.heating.value)
      && forall i :: |c.magicPost| <= i < |r.magicPost| ==> r.magicPost[i].Heater() && r.magicPost[i].tool != a
  {
    var a := c.facts.activeTool.value;
    var ems := r.magicPost[|c.magicPost|..];
    forall i | |c.magicPost| <= i < |r.magicPost|
      ensures r.magicPost[i].Heater() && r.magicPost[i].tool != a
    {
      assert r.magicPost[i] == ems[i - |c.magicPost|];
    }
  }

  /** Every heating tool other than the active one is needed within the
      preheat horizon: tools never needed again end up off. */
  lemma HeatingNeeded(c: Command, prev: Facts, r: Command)
    requires PreheatDefined(c) && Preheated(c, prev, r) && c.facts.activeTool.Some?
    ensures r.facts.heating.Some?
    ensures forall t :: t in r.facts.heating.value && t != c.facts.activeTool.value ==>
      t in c.facts.timeNextNeeded && Soon(c.facts, t)
  {
  }

  /** The facts the record at `i` of `r` was stepped with: those of the
      record before it, or the empty facts for the first record. */
  function Before(r: seq<Command>, i: nat): Facts
    requires i <= |r|
  {
    if i == 0 then NoFacts else r[i - 1].facts
  }

  /** The records `s` after the preheat step visited the first m of them:
      each visited record is its original stepped with the facts of the record
      before it as already stepped, and the rest are untouched. */
  ghost predicate PreheatedUpTo(s: seq<Command>, r: seq<Command>, m: nat)
  {
    && |s| == |r| && m <= |s|
    && (forall i :: 0 <= i < |s| ==> PreheatDefined(s[i]))
    && (forall i :: 0 <= i < m ==> Preheated(s[i], Before(r, i), r[i]))
    && (forall i :: m <= i < |s| ==> r[i] == s[i])
  }

  lemma PreheatedMore(s: seq<Command>, r: seq<Command>, m: nat, x: Command)
    requires PreheatedUpTo(s, r, m) && m < |s| && Preheated(s[m], Before(r, m), x)
    ensures PreheatedUpTo(s, r[m := x], m + 1)
  {
    var r' := r[m := x];
    forall i | 0 <= i < m + 1
      ensures Preheated(s[i], Before(r', i), r'[i])
    {
      assert Before(r', i) == Before(r, i);
    }
  }

  /** `propagate(prop_preheat)`: the preheat step on every record, front to
      back, each time with the facts of the record before it as the step left
      them. This is the forward loop of `Propagation.Propagate` written out
      again, because the preheat step is a method rather than a function the
      driver can take as a parameter. */
  method PropagatePreheat(a: array<Command>)
    requires forall i :: 0 <= i < a.Length ==> PreheatDefined(a[i])
    modifies a
    ensures PreheatedUpTo(old(a[..]), a[..], a.Length)
  {
    ghost var s := a[..];
    var prev := NoFacts;
    var m := 0;
    while m < a.Length
      invariant m <= a.Length && PreheatedUpTo(s, a[..], m) && prev == Before(a[..], m)
    {
      var r := PreheatStep(a[m], prev);
      PreheatedMore(s, a[..], m, r);
      a[m] := r;
      prev := r.facts;
      m := m + 1;
    }
  }

  /** The heating set the pass leaves on record i of `s`, from the original
      records alone: unchanged while no tool is known, otherwise settled from
      the set left on the record before it. */
  function HeatingAt(s: seq<Command>, i: nat): Option<set<int>>
    requires i < |s|
  {
    match s[i].facts.activeTool
    case None => s[i].facts.heating
    case Some(a) =>
      var prev := if i == 0 then None else HeatingAt(s, i - 1);
      Some(Heating(if prev.Some? then prev.value else {a}, s[i].facts, a))
  }

  /** After the pass, every record's heating set is the one `HeatingAt`
      computes from the records before the pass. */
  lemma {:induction false} PreheatHeating(s: seq<Command>, r: seq<Command>, i: nat)
    requires PreheatedUpTo(s, r, |s|) && i < |s|
    ensures r[i].facts.heating == HeatingAt(s, i)
  {
    assert Preheated(s[i], Before(r, i), r[i]);
    if i > 0 {
      PreheatHeating(s, r, i - 1);
    }
  }

  /** On records that held no heating set before the pass, a record has one
      after it exactly when its active tool is known. */
  lemma HeatingKnown(s: seq<Command>, r: seq<Command>, i: nat)
    requires PreheatedUpTo(s, r, |s|) && i < |s| && s[i].facts.heating.None?
    ensures r[i].facts.heating.Some? <==> s[i].facts.activeTool.Some?
  {
    assert Preheated(s[i], Before(r, i), r[i]);
  }

  /** Along the file, the heater lines inserted after a record name exactly
      the tools that start or stop heating between the record before it and
      this one. */
  lemma HeatingChanges(s: seq<Command>, r: seq<Command>, i: nat)
    requires PreheatedUpTo(s, r, |s|) && 0 < i < |s|
    requires s[i].facts.activeTool.Some? && r[i - 1].facts.heating.Some?
    ensures |s[i].magicPost| <= |r[i].magicPost| && r[i].facts.heating.Some?
    ensures var ems := r[i].magicPost[|s[i].magicPost|..];
      var h0, h := r[i - 1].facts.heating.value, r[i].facts.heating.value;
      && (forall k :: 0 <= k < |ems| ==> ems[k].Heater())
      && Tools(ems) == (h0 - h) + (h - h0)
  {
    assert Preheated(s[i], Before(r, i), r[i]);
    var f, a := s[i].facts, s[i].facts.activeTool.value;
    AnnouncedFlips(r[i].magicPost[|s[i].magicPost|..], Inherited(Before(r, i), a), f, a);
  }
}
