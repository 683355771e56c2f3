/** The whole of tool-wizard between reading and writing the file: the six
    passes in the order the script runs them, over the array of records the
    parser produced. Each pass before the preheat pass is a function of the
    records it is given, so the state between passes is a ghost function of
    the parsed records. */
module Pipeline {
  import opened GCode
  import opened Propagation
  import opened Passes
  import opened Preheat

  /** A record as the parser makes it: no facts, nothing inserted. */
  predicate Fresh(c: Command) {
    c.facts == NoFacts && c.magicPre == [] && c.magicPost == []
  }

  /** `r` holds the lines of `s`, record by record: only the facts differ. */
  ghost predicate SameLines(s: seq<Command>, r: seq<Command>) {
    |r| == |s| && forall k :: 0 <= k < |s| ==> r[k] == s[k].(facts := r[k].facts)
  }

  /** Whether a pass can fail on a record depends on its command and
      arguments alone, so it is the same for records with the same lines. */
  lemma DefinedAlike(s: seq<Command>, r: seq<Command>)
    requires SameLines(s, r)
    ensures forall k :: 0 <= k < |s| ==> ToolDefined(r[k]) == ToolDefined(s[k])
    ensures forall k :: 0 <= k < |s| ==> NeedDefined(r[k]) == NeedDefined(s[k])
    ensures forall k :: 0 <= k < |s| ==> FanDefined(r[k]) == FanDefined(s[k])
  {
    forall k | 0 <= k < |s|
      ensures r[k].cmd == s[k].cmd && r[k].args == s[k].args
    {
      assert r[k] == s[k].(facts := r[k].facts);
    }
  }

  lemma NeedTools(s: seq<Command>)
    requires forall k :: 0 <= k < |s| ==> NeedDefined(s[k])
    ensures forall k :: 0 <= k < |s| ==> ToolDefined(s[k])
  {
  }

  // ---------------------------------------------------------------------------
  // The records between passes

  /** After `propagate(prop_gcode_state)`. */
  ghost function Stated(s: seq<Command>): seq<Command> {
    RunsLocal(s, GcodeState);
    Propagated(s, GcodeState, false)
  }

  /** After `propagate(prop_time_estimate)`. */
  ghost function Timed(s: seq<Command>, sqrt: real -> real): seq<Command>
    requires TimeReady(Stated(s), sqrt)
  {
    TimeRuns(Stated(s), sqrt);
    Propagated(Stated(s), TimeStep(sqrt), false)
  }

  /** After `propagate(prop_active_tool)`. */
  ghost function Tooled(s: seq<Command>, sqrt: real -> real): seq<Command>
    requires forall k :: 0 <= k < |s| ==> ToolDefined(s[k])
    requires TimeReady(Stated(s), sqrt)
  {
    TimedLines(s, sqrt);
    DefinedAlike(s, Timed(s, sqrt));
    RunsLocal(Timed(s, sqrt), ActiveTool);
    Propagated(Timed(s, sqrt), ActiveTool, false)
  }

  /** After `propagate(prop_next_needed, reverse=True)`. */
  ghost function Planned(s: seq<Command>, sqrt: real -> real): seq<Command>
    requires forall k :: 0 <= k < |s| ==> NeedDefined(s[k])
    requires TimeReady(Stated(s), sqrt)
  {
    NeedTools(s);
    TooledLines(s, sqrt);
    DefinedAlike(s, Tooled(s, sqrt));
    NextNeededRuns(Tooled(s, sqrt));
    Propagated(Tooled(s, sqrt), NextNeeded, true)
  }

  /** After `propagate(prop_fan)`, run on the records `h` the preheat pass
      left. */
  ghost function Fanned(h: seq<Command>): seq<Command>
    requires forall k :: 0 <= k < |h| ==> FanDefined(h[k])
  {
    RunsLocal(h, Fan);
    Propagated(h, Fan, false)
  }

  /** The script runs to the end on the parsed records `s`: the records are
      fresh from the parser, every tool change names its tool, every `M104`
      and `M109` names a tool and a temperature, every `M106` a speed, every
      move after a located record lands somewhere else only at a known
      non-zero feed rate, and every tool needed later has a temperature set
      for it after the record. */
  ghost predicate Ready(s: seq<Command>, sqrt: real -> real) {
    && (forall k :: 0 <= k < |s| ==> Fresh(s[k]) && NeedDefined(s[k]) && FanDefined(s[k]))
    && TimeReady(Stated(s), sqrt)
    && forall k :: 0 <= k < |s| ==> PreheatDefined(Planned(s, sqrt)[k])
  }

  // ---------------------------------------------------------------------------
  // The first four passes change only the facts

  lemma StatedLines(s: seq<Command>)
    ensures SameLines(s, Stated(s))
  {
    RunsLocal(s, GcodeState);
    forall k | 0 <= k < |s|
      ensures Stated(s)[k] == s[k].(facts := Stated(s)[k].facts)
    {
      PropagatedAt(s, GcodeState, false, k);
    }
  }

  lemma TimedLines(s: seq<Command>, sqrt: real -> real)
    requires TimeReady(Stated(s), sqrt)
    ensures SameLines(s, Timed(s, sqrt))
  {
    var s1 := Stated(s);
    StatedLines(s);
    TimeRuns(s1, sqrt);
    forall k | 0 <= k < |s|
      ensures Timed(s, sqrt)[k] == s[k].(facts := Timed(s, sqrt)[k].facts)
    {
      TimeAt(s1, sqrt, k);
    }
  }

  lemma TooledLines(s: seq<Command>, sqrt: real -> real)
    requires forall k :: 0 <= k < |s| ==> ToolDefined(s[k])
    requires TimeReady(Stated(s), sqrt)
    ensures SameLines(s, Tooled(s, sqrt))
  {
    var s2 := Timed(s, sqrt);
    TimedLines(s, sqrt);
    DefinedAlike(s, s2);
    RunsLocal(s2, ActiveTool);
    forall k | 0 <= k < |s|
      ensures Tooled(s, sqrt)[k] == s[k].(facts := Tooled(s, sqrt)[k].facts)
    {
      PropagatedAt(s2, ActiveTool, false, k);
    }
  }

  lemma PlannedLines(s: seq<Command>, sqrt: real -> real)
    requires forall k :: 0 <= k < |s| ==> NeedDefined(s[k])
    requires TimeReady(Stated(s), sqrt)
    ensures SameLines(s, Planned(s, sqrt))
  {
    NeedTools(s);
    var s3 := Tooled(s, sqrt);
    TooledLines(s, sqrt);
    DefinedAlike(s, s3);
    NextNeededRuns(s3);
    forall k | 0 <= k < |s|
      ensures Planned(s, sqrt)[k] == s[k].(facts := Planned(s, sqrt)[k].facts)
    {
      PropagatedAt(s3, NextNeeded, true, k);
    }
  }

  /** The lines the preheat pass left are those of the parsed records, apart
      from the post-lines it inserted, so the fan pass runs on them. */
  lemma HeatedFans(s: seq<Command>, sqrt: real -> real, h: seq<Command>)
    requires forall k :: 0 <= k < |s| ==> NeedDefined(s[k]) && FanDefined(s[k])
    requires TimeReady(Stated(s), sqrt)
    requires PreheatedUpTo(Planned(s, sqrt), h, |h|)
    ensures forall k :: 0 <= k < |h| ==> FanDefined(h[k])
  {
    var p := Planned(s, sqrt);
    PlannedLines(s, sqrt);
    forall k | 0 <= k < |h|
      ensures FanDefined(h[k])
    {
      assert Preheated(p[k], Before(h, k), h[k]);
      assert p[k] == s[k].(facts := p[k].facts);
    }
  }

  // ---------------------------------------------------------------------------
  // The script

  method RunState(a: array<Command>)
    modifies a
    ensures a[..] == Stated(old(a[..]))
  {
    RunsLocal(a[..], GcodeState);
    Propagate(a, GcodeState, false);
  }

  method RunTime(a: array<Command>, sqrt: real -> real, ghost s: seq<Command>)
    requires TimeReady(Stated(s), sqrt) && a[..] == Stated(s)
    modifies a
    ensures a[..] == Timed(s, sqrt)
  {
    TimeRuns(a[..], sqrt);
    Propagate(a, TimeStep(sqrt), false);
  }

  method RunTool(a: array<Command>, sqrt: real -> real, ghost s: seq<Command>)
    requires forall k :: 0 <= k < |s| ==> ToolDefined(s[k])
    requires TimeReady(Stated(s), sqrt) && a[..] == Timed(s, sqrt)
    modifies a
    ensures a[..] == Tooled(s, sqrt)
  {
    TimedLines(s, sqrt);
    DefinedAlike(s, a[..]);
    RunsLocal(a[..], ActiveTool);
    Propagate(a, ActiveTool, false);
  }

  method RunNeeded(a: array<Command>, sqrt: real -> real, ghost s: seq<Command>)
    requires forall k :: 0 <= k < |s| ==> NeedDefined(s[k])
    requires TimeReady(Stated(s), sqrt)
    requires forall k :: 0 <= k < |s| ==> ToolDefined(s[k])
    requires a[..] == Tooled(s, sqrt)
    modifies a
    ensures a[..] == Planned(s, sqrt)
  {
    TooledLines(s, sqrt);
    DefinedAlike(s, a[..]);
    NextNeededRuns(a[..]);
    Propagate(a, NextNeeded, true);
  }

  /** The first four passes, each run on what the one before it left. */
  method Plan(a: array<Command>, sqrt: real -> real)
    requires forall k :: 0 <= k < a.Length ==> NeedDefined(a[k])
    requires TimeReady(Stated(a[..]), sqrt)
    modifies a
    ensures a[..] == Planned(old(a[..]), sqrt)
  {
    ghost var s := a[..];
    NeedTools(s);
    RunState(a);
    RunTime(a, sqrt, s);
    RunTool(a, sqrt, s);
    RunNeeded(a, sqrt, s);
  }

  /** The six passes in the script's order. The preheat pass may announce
      the changes of one record in any order, so its result `heated` is
      returned as a witness; the fan pass is then a function of it. */
  method Process(a: array<Command>, sqrt: real -> real) returns (ghost heated: seq<Command>)
    requires Ready(a[..], sqrt)
    modifies a
    ensures PreheatedUpTo(Planned(old(a[..]), sqrt), heated, |heated|)
    ensures (forall k :: 0 <= k < |heated| ==> FanDefined(heated[k])) && a[..] == Fanned(heated)
  {
    ghost var s := a[..];
    Plan(a, sqrt);
    PropagatePreheat(a);
    heated := a[..];
    HeatedFans(s, sqrt, heated);
    RunsLocal(a[..], Fan);
    Propagate(a, Fan, false);
  }

  // ---------------------------------------------------------------------------
  // What the script writes around each line

  /** After the preheat pass a record holds its parsed line, nothing before
      it, and heater lines only after it. */
  lemma HeatedLine(s: seq<Command>, sqrt: real -> real, h: seq<Command>, i: nat)
    requires forall k :: 0 <= k < |s| ==> Fresh(s[k]) && NeedDefined(s[k]) && FanDefined(s[k])
    requires TimeReady(Stated(s), sqrt)
    requires PreheatedUpTo(Planned(s, sqrt), h, |h|) && i < |s|
    ensures h[i].raw == s[i].raw && h[i].cmd == s[i].cmd && h[i].args == s[i].args && h[i].magicPre == []
    ensures forall k :: 0 <= k < |h[i].magicPost| ==> h[i].magicPost[k].Heater()
  {
    var p := Planned(s, sqrt);
    PlannedLines(s, sqrt);
    assert p[i] == s[i].(facts := p[i].facts);
    assert Preheated(p[i], Before(h, i), h[i]);
    assert h[i].magicPost == h[i].magicPost[|p[i].magicPost|..];
  }

  /** The fan pass on the records the preheat pass left. */
  lemma FannedLine(h: seq<Command>, i: nat)
    requires forall k :: 0 <= k < |h| ==> FanDefined(h[k])
    requires i < |h|
    ensures var out := Fanned(h);
      var before := if i == 0 then 0.0 else out[i - 1].facts.fanSpeed;
      && out[i].raw == h[i].raw && out[i].cmd == h[i].cmd && out[i].args == h[i].args
      && out[i].magicPre == h[i].magicPre + (if IsToolChange(h[i]) then [FanOff] else [])
      && out[i].magicPost == h[i].magicPost + (if IsToolChange(h[i]) then [SetFan(before)] else [])
  {
    FanBrackets(h, i);
  }

  /** Around every line of the file the script writes: before a tool change,
      the fan switched off, and nothing before any other line; after a line,
      the heater lines of the preheat pass, then, after a tool change and
      last of all, the fan restored to the speed in force before it. */
  lemma InsertedLines(s: seq<Command>, sqrt: real -> real, h: seq<Command>, i: nat)
    requires forall k :: 0 <= k < |s| ==> Fresh(s[k]) && NeedDefined(s[k]) && FanDefined(s[k])
    requires TimeReady(Stated(s), sqrt)
    requires PreheatedUpTo(Planned(s, sqrt), h, |h|) && i < |s|
    ensures forall k :: 0 <= k < |h| ==> FanDefined(h[k])
    ensures var out := Fanned(h);
      var before := if i == 0 then 0.0 else out[i - 1].facts.fanSpeed;
      && out[i].raw == s[i].raw && out[i].cmd == s[i].cmd && out[i].args == s[i].args
      && out[i].magicPre == (if IsToolChange(s[i]) then [FanOff] else [])
      && out[i].magicPost == h[i].magicPost + (if IsToolChange(s[i]) then [SetFan(before)] else [])
      && forall k :: 0 <= k < |h[i].magicPost| ==> h[i].magicPost[k].Heater()
  {
    HeatedFans(s, sqrt, h);
    HeatedLine(s, sqrt, h, i);
    FannedLine(h, i);
  }

  // ---------------------------------------------------------------------------
  // Lines that neither move nor change tool

  lemma StatedKeeps(s: seq<Command>, k: nat)
    requires k < |s|
    ensures Stated(s)[k].facts.heating == s[k].facts.heating
  {
    RunsLocal(s, GcodeState);
    PropagatedAt(s, GcodeState, false, k);
  }

  lemma TimedKeeps(s: seq<Command>, sqrt: real -> real, k: nat)
    requires TimeReady(Stated(s), sqrt) && k < |s|
    ensures Timed(s, sqrt)[k].facts.heating == Stated(s)[k].facts.heating
  {
    TimeRuns(Stated(s), sqrt);
    TimeAt(Stated(s), sqrt, k);
  }

  lemma TooledKeeps(s: seq<Command>, sqrt: real -> real, k: nat)
    requires forall j :: 0 <= j < |s| ==> ToolDefined(s[j])
    requires TimeReady(Stated(s), sqrt) && k < |s|
    ensures Tooled(s, sqrt)[k].facts.heating == Timed(s, sqrt)[k].facts.heating
    ensures Tooled(s, sqrt)[k].facts.time == Timed(s, sqrt)[k].facts.time
  {
    var s2 := Timed(s, sqrt);
    TimedLines(s, sqrt);
    DefinedAlike(s, s2);
    RunsLocal(s2, ActiveTool);
    PropagatedAt(s2, ActiveTool, false, k);
  }

  lemma PlannedKeeps(s: seq<Command>, sqrt: real -> real, k: nat)
    requires forall j :: 0 <= j < |s| ==> NeedDefined(s[j]) && ToolDefined(s[j])
    requires TimeReady(Stated(s), sqrt) && k < |s|
    ensures var p, s3 := Planned(s, sqrt), Tooled(s, sqrt);
      && p[k].facts.heating == s3[k].facts.heating
      && p[k].facts.time == s3[k].facts.time
      && p[k].facts.activeTool == s3[k].facts.activeTool
  {
    var s3 := Tooled(s, sqrt);
    TooledLines(s, sqrt);
    DefinedAlike(s, s3);
    NextNeededRuns(s3);
    PropagatedAt(s3, NextNeeded, true, k);
  }

  /** Every pass before the preheat pass keeps the heating fact, the time
      pass's time and the active-tool pass's tool. */
  lemma PlannedFacts(s: seq<Command>, sqrt: real -> real, k: nat)
    requires forall j :: 0 <= j < |s| ==> NeedDefined(s[j])
    requires TimeReady(Stated(s), sqrt) && k < |s|
    ensures (NeedTools(s); var p := Planned(s, sqrt);
      && p[k].facts.heating == s[k].facts.heating
      && p[k].facts.time == Timed(s, sqrt)[k].facts.time
      && p[k].facts.activeTool == Tooled(s, sqrt)[k].facts.activeTool)
  {
    NeedTools(s);
    StatedKeeps(s, k);
    TimedKeeps(s, sqrt, k);
    TooledKeeps(s, sqrt, k);
    PlannedKeeps(s, sqrt, k);
  }

  /** A line that does not move adds no time, provided the square root of 0
      is 0: its position is the previous one, so the distance is 0. */
  lemma StillTime(s: seq<Command>, sqrt: real -> real, i: nat)
    requires sqrt(0.0) == 0.0
    requires TimeReady(Stated(s), sqrt) && 0 < i < |s| && !IsMove(s[i])
    ensures Timed(s, sqrt)[i].facts.time == Timed(s, sqrt)[i - 1].facts.time
  {
    var s1 := Stated(s);
    MotionAt(s, 'X', i);
    MotionAt(s, 'Y', i);
    TimeIs(s1, sqrt, i);
    TimeIs(s1, sqrt, i - 1);
    if Located(s1[i - 1].facts) {
      var x, y := s1[i - 1].facts.x.value, s1[i - 1].facts.y.value;
      assert Distance(s1[i], s1[i - 1].facts, sqrt) == Euclid(x, y, x, y, sqrt);
    }
  }

  /** A line that does not change tool keeps the previous line's tool. */
  lemma StillTool(s: seq<Command>, sqrt: real -> real, i: nat)
    requires forall k :: 0 <= k < |s| ==> ToolDefined(s[k])
    requires TimeReady(Stated(s), sqrt) && 0 < i < |s| && !IsToolChange(s[i])
    ensures Tooled(s, sqrt)[i].facts.activeTool == Tooled(s, sqrt)[i - 1].facts.activeTool
  {
    var s2 := Timed(s, sqrt);
    TimedLines(s, sqrt);
    DefinedAlike(s, s2);
    RunsLocal(s2, ActiveTool);
    PropagatedAt(s2, ActiveTool, false, i);
    assert s2[i] == s[i].(facts := s2[i].facts);
  }

  /** A tool change selects the tool it makes active. */
  lemma SelectsActive(s: seq<Command>, sqrt: real -> real, k: nat, t: int)
    requires forall j :: 0 <= j < |s| ==> ToolDefined(s[j])
    requires TimeReady(Stated(s), sqrt) && k < |s|
    requires Selects(Tooled(s, sqrt)[k], t)
    ensures Tooled(s, sqrt)[k].facts.activeTool == Some(t)
  {
    var s2, s3 := Timed(s, sqrt), Tooled(s, sqrt);
    TimedLines(s, sqrt);
    TooledLines(s, sqrt);
    DefinedAlike(s, s2);
    RunsLocal(s2, ActiveTool);
    PropagatedAt(s2, ActiveTool, false, k);
    assert s3[k] == s[k].(facts := s3[k].facts);
    assert s2[k] == s[k].(facts := s2[k].facts);
  }

  /** Record i - 1 needs tool t, other than its own active tool, exactly
      when record i does, and at the same time. */
  lemma NeedAway(s: seq<Command>, sqrt: real -> real, i: nat, t: int)
    requires forall k :: 0 <= k < |s| ==> NeedDefined(s[k]) && ToolDefined(s[k])
    requires TimeReady(Stated(s), sqrt) && 0 < i < |s|
    requires Some(t) != Tooled(s, sqrt)[i - 1].facts.activeTool
    ensures var p := Planned(s, sqrt);
      && (t in p[i - 1].facts.timeNextNeeded <==> t in p[i].facts.timeNextNeeded)
      && (t in p[i].facts.timeNextNeeded ==> p[i - 1].facts.timeNextNeeded[t] == p[i].facts.timeNextNeeded[t])
  {
    var s3 := Tooled(s, sqrt);
    if Selects(s3[i - 1], t) {
      SelectsActive(s, sqrt, i - 1, t);
    }
    TooledLines(s, sqrt);
    DefinedAlike(s, s3);
    NeededAt(s3, t, i - 1);
  }

  /** A line that neither moves nor changes tool (a blank line, a comment, a
      line that does not parse, any other command) inherits the active tool,
      the time and the heating set of the line before it, and the preheat
      pass inserts nothing around it. */
  lemma QuietLine(s: seq<Command>, sqrt: real -> real, h: seq<Command>, i: nat)
    requires sqrt(0.0) == 0.0
    requires Ready(s, sqrt) && PreheatedUpTo(Planned(s, sqrt), h, |h|) && 0 < i < |s|
    requires !IsMove(s[i]) && !IsToolChange(s[i])
    ensures h[i].facts.activeTool == h[i - 1].facts.activeTool && h[i].facts.time == h[i - 1].facts.time
    ensures h[i].facts.heating == h[i - 1].facts.heating
    ensures h[i].magicPre == [] && h[i].magicPost == []
  {
    NeedTools(s);
    var p := Planned(s, sqrt);
    PlannedFacts(s, sqrt, i);
    PlannedFacts(s, sqrt, i - 1);
    StillTool(s, sqrt, i);
    StillTime(s, sqrt, i);
    PlannedLines(s, sqrt);
    assert p[i] == s[i].(facts := p[i].facts);
    assert Preheated(p[i], Before(h, i), h[i]);
    assert Preheated(p[i - 1], Before(h, i - 1), h[i - 1]);
    match p[i].facts.activeTool
    case None =>
    case Some(a) =>
      forall t | Some(t) != Tooled(s, sqrt)[i - 1].facts.activeTool {
        NeedAway(s, sqrt, i, t);
      }
      var h1 := h[i - 1].facts.heating.value;
      HeatingSettled(Inherited(Before(h, i - 1), a), p[i - 1].facts, p[i].facts, a);
      QuietWhenSettled(h[i].magicPost[|p[i].magicPost|..], h1, p[i].facts, a);
  }

  /** A blank line, a comment or a line that does not parse changes nothing:
      it inherits the tool, the time and the heating set, and the preheat
      pass inserts nothing around it. */
  lemma BlankLineQuiet(s: seq<Command>, sqrt: real -> real, h: seq<Command>, i: nat)
    requires sqrt(0.0) == 0.0
    requires Ready(s, sqrt) && PreheatedUpTo(Planned(s, sqrt), h, |h|) && 0 < i < |s| && s[i].cmd.None?
    ensures h[i].facts.activeTool == h[i - 1].facts.activeTool && h[i].facts.time == h[i - 1].facts.time
    ensures h[i].facts.heating == h[i - 1].facts.heating
    ensures h[i].magicPre == [] && h[i].magicPost == []
  {
    QuietLine(s, sqrt, h, i);
  }
}
