/** Five of the six passes of tool-wizard, each a step from (record, facts of
    the previously visited record) to the updated record: position and feed,
    time estimate, active tool, next use of each tool (visited back to front)
    and fan speed. The preheat pass is in module `Preheat`. For each pass a
    lemma characterises the facts the whole pass leaves on every record in
    terms of the original records alone. */
module Passes {
  import opened GCode
  import opened Propagation

  // ---------------------------------------------------------------------------
  // Kinds of commands

  /** `G0`-`G3`: the commands whose `X`, `Y` and `F` move the head. */
  predicate IsMove(c: Command) {
    c.cmd.Some? && c.cmd.value in {"G0", "G1", "G2", "G3"}
  }

  /** A tool change: a command starting with `T`. */
  predicate IsToolChange(c: Command) {
    c.cmd.Some? && |c.cmd.value| > 0 && c.cmd.value[0] == 'T'
  }

  /** `M104` or `M109`: set a tool's target temperature. */
  predicate IsSetTemp(c: Command) {
    c.cmd.Some? && c.cmd.value in {"M104", "M109"}
  }

  /** The tool number a command names in its `T` word. */
  function Tool(c: Command): int
    requires 'T' in c.args
  {
    c.args['T'].Floor
  }

  // ---------------------------------------------------------------------------
  // Position and feed: prop_gcode_state

  /** The fact for `X`, `Y` or `F`. */
  function Motion(f: Facts, letter: char): Option<real>
    requires letter in "XYF"
  {
    if letter == 'X' then f.x else if letter == 'Y' then f.y else f.feed
  }

  /** The command sets the position or feed fact for this letter. */
  predicate SetsMotion(c: Command, letter: char) {
    IsMove(c) && letter in c.args
  }

  function MotionFact(c: Command, prev: Facts, letter: char): Option<real>
    requires letter in "XYF"
  {
    if SetsMotion(c, letter) then Some(c.args[letter]) else Motion(prev, letter)
  }

  /** Each of X, Y and F is the command's argument on a move that has it, and
      otherwise the previous record's fact; nothing else of the record
      changes. */
  function GcodeState(c: Command, prev: Facts): (r: Command)
    ensures forall letter :: letter in "XYF" ==>
      Motion(r.facts, letter) == (if SetsMotion(c, letter) then Some(c.args[letter]) else Motion(prev, letter))
    ensures r == c.(facts := c.facts.(x := r.facts.x, y := r.facts.y, feed := r.facts.feed))
  {
    c.(facts := c.facts.(x := MotionFact(c, prev, 'X'), y := MotionFact(c, prev, 'Y'), feed := MotionFact(c, prev, 'F')))
  }

  /** One record after the pass: its X, Y or F fact is its own argument on a
      move that has it, and the previous record's fact (none for the first)
      otherwise. */
  lemma MotionAt(s: seq<Command>, letter: char, i: nat)
    requires letter in "XYF" && i < |s|
    ensures Runs(s, GcodeState)
    ensures var r := Propagated(s, GcodeState, false);
      Motion(r[i].facts, letter) ==
        if SetsMotion(s[i], letter) then Some(s[i].args[letter])
        else if i == 0 then None else Motion(r[i - 1].facts, letter)
  {
    RunsLocal(s, GcodeState);
    PropagatedAt(s, GcodeState, false, i);
  }

  /** After the pass, the X, Y or F fact of record i is the argument of the
      last move at or before i that has that letter, and `None` when there is
      no such move. */
  lemma {:induction false} LastMotion(s: seq<Command>, letter: char, i: nat)
    requires letter in "XYF" && i < |s|
    ensures Runs(s, GcodeState)
    ensures Motion(Propagated(s, GcodeState, false)[i].facts, letter).None? <==>
      forall k :: 0 <= k <= i ==> !SetsMotion(s[k], letter)
    ensures forall k :: 0 <= k <= i && SetsMotion(s[k], letter) && (forall j :: k < j <= i ==> !SetsMotion(s[j], letter)) ==>
      Motion(Propagated(s, GcodeState, false)[i].facts, letter) == Some(s[k].args[letter])
  {
    MotionAt(s, letter, i);
    if i > 0 {
      LastMotion(s, letter, i - 1);
    }
  }

  // ---------------------------------------------------------------------------
  // Time estimate: prop_time_estimate

  /** Both coordinates are known. */
  predicate Located(f: Facts) {
    f.x.Some? && f.y.Some?
  }

  /** Euclidean distance between two points; `sqrt` is the square root,
      which this model does not define. */
  function Euclid(x0: real, y0: real, x1: real, y1: real, sqrt: real -> real): real {
    sqrt((x1 - x0) * (x1 - x0) + (y1 - y0) * (y1 - y0))
  }

  /** Distance travelled from the previous position. */
  function Distance(c: Command, prev: Facts, sqrt: real -> real): real
    requires Located(c.facts) && Located(prev)
  {
    Euclid(prev.x.value, prev.y.value, c.facts.x.value, c.facts.y.value, sqrt)
  }

  /** The pass does not fail on this record: once the previous position is
      known the record's is too, and a move of positive length has a known,
      non-zero feed rate to divide by. */
  predicate TimeDefined(c: Command, prev: Facts, sqrt: real -> real) {
    Located(prev) ==>
      Located(c.facts) && (Distance(c, prev, sqrt) > 0.0 ==> c.facts.feed.Some? && c.facts.feed.value != 0.0)
  }

  /** The time at which the record executes: the previous record's time, plus
      the move's duration (distance over feed rate per minute) when both
      positions are known and the head moves. */
  function TimeEstimate(c: Command, prev: Facts, sqrt: real -> real): (r: Command)
    requires TimeDefined(c, prev, sqrt)
    ensures r == c.(facts := c.facts.(time := r.facts.time))
    ensures !Located(prev) || Distance(c, prev, sqrt) <= 0.0 ==> r.facts.time == prev.time
    ensures Located(prev) && Distance(c, prev, sqrt) > 0.0 ==>
      r.facts.time == prev.time + Distance(c, prev, sqrt) / c.facts.feed.value * 60.0
    ensures (c.facts.feed.Some? ==> c.facts.feed.value > 0.0) ==> r.facts.time >= prev.time
  {
    var time :=
      if Located(prev) && Distance(c, prev, sqrt) > 0.0
      then prev.time + Distance(c, prev, sqrt) / c.facts.feed.value * 60.0
      else prev.time;
    c.(facts := c.facts.(time := time))
  }

  /** The time pass as a step of the driver. */
  function TimeStep(sqrt: real -> real): Step {
    (c: Command, p: Facts) requires TimeDefined(c, p, sqrt) => TimeEstimate(c, p, sqrt)
  }

  /** Every record is well defined against its predecessor's position and
      feed: the condition under which the time pass does not fail, since the
      pass changes neither. */
  predicate TimeReady(s: seq<Command>, sqrt: real -> real) {
    forall i :: 0 < i < |s| ==> TimeDefined(s[i], s[i - 1].facts, sqrt)
  }

  lemma TimeStepApplies(sqrt: real -> real, c: Command, p: Facts)
    requires TimeDefined(c, p, sqrt)
    ensures TimeStep(sqrt).requires(c, p) && TimeStep(sqrt)(c, p) == TimeEstimate(c, p, sqrt)
  {
  }

  lemma TimeDefinedLocal(c: Command, p: Facts, q: Facts, sqrt: real -> real)
    requires p.x == q.x && p.y == q.y
    ensures TimeDefined(c, p, sqrt) == TimeDefined(c, q, sqrt)
  {
  }

  /** One record after the pass: the time estimate applied to it and to the
      facts of the record before it. */
  lemma {:induction false} TimeAt(s: seq<Command>, sqrt: real -> real, i: nat)
    requires TimeReady(s, sqrt) && Runs(s, TimeStep(sqrt)) && i < |s|
    ensures var r := Propagated(s, TimeStep(sqrt), false);
      var before := if i == 0 then NoFacts else r[i - 1].facts;
      TimeDefined(s[i], before, sqrt) && r[i] == TimeEstimate(s[i], before, sqrt)
  {
    var r := Propagated(s, TimeStep(sqrt), false);
    var before := if i == 0 then NoFacts else r[i - 1].facts;
    PropagatedAt(s, TimeStep(sqrt), false, i);
    if i > 0 {
      TimeAt(s, sqrt, i - 1);
      TimeDefinedLocal(s[i], s[i - 1].facts, before, sqrt);
    }
    TimeStepApplies(sqrt, s[i], before);
  }

  /** The time pass runs without failing on records that are ready for it. */
  lemma {:induction false} TimeRuns(s: seq<Command>, sqrt: real -> real)
    requires TimeReady(s, sqrt)
    ensures Runs(s, TimeStep(sqrt))
    decreases |s|
  {
    if |s| > 0 {
      var n := |s| - 1;
      var t := s[..n];
      assert forall i :: 0 <= i < |t| ==> t[i] == s[i];
      TimeRuns(t, sqrt);
      var before := LastFacts(Forward(t, TimeStep(sqrt)));
      if n > 0 {
        TimeAt(t, sqrt, n - 1);
        TimeDefinedLocal(s[n], s[n - 1].facts, before, sqrt);
      }
      TimeStepApplies(sqrt, s[n], before);
    }
  }

  /** The first record's time is 0.0. */
  lemma TimeStarts(s: seq<Command>, sqrt: real -> real)
    requires TimeReady(s, sqrt) && |s| > 0
    ensures Runs(s, TimeStep(sqrt))
    ensures Propagated(s, TimeStep(sqrt), false)[0].facts.time == 0.0
  {
    TimeRuns(s, sqrt);
    TimeAt(s, sqrt, 0);
  }

  /** When every move of positive length from a known position has a positive
      feed rate, time never decreases along the file. */
  lemma {:induction false} TimeNonDecreasing(s: seq<Command>, sqrt: real -> real, i: nat, j: nat)
    requires TimeReady(s, sqrt) && i <= j < |s|
    requires forall k ::
      (0 < k < |s| && Located(s[k - 1].facts) && Located(s[k].facts) && Distance(s[k], s[k - 1].facts, sqrt) > 0.0)
      ==> s[k].facts.feed.Some? && s[k].facts.feed.value > 0.0
    ensures Runs(s, TimeStep(sqrt))
    ensures Propagated(s, TimeStep(sqrt), false)[i].facts.time <= Propagated(s, TimeStep(sqrt), false)[j].facts.time
    decreases j
  {
    TimeRuns(s, sqrt);
    if i < j {
      TimeNonDecreasing(s, sqrt, i, j - 1);
      TimeAt(s, sqrt, j - 1);
      TimeAt(s, sqrt, j);
    }
  }

  /** The duration of the move into record k from the record before it, as
      the records stand before the pass: distance over feed rate per minute
      when both positions are known and the head moves, otherwise nothing. */
  function MoveTime(s: seq<Command>, sqrt: real -> real, k: nat): real
    requires TimeReady(s, sqrt) && 0 < k < |s|
  {
    var prev := s[k - 1].facts;
    assert TimeDefined(s[k], prev, sqrt);
    if Located(prev) && Distance(s[k], prev, sqrt) > 0.0
    then Distance(s[k], prev, sqrt) / s[k].facts.feed.value * 60.0
    else 0.0
  }

  /** The total duration of the moves up to record i. */
  function Elapsed(s: seq<Command>, sqrt: real -> real, i: nat): real
    requires TimeReady(s, sqrt) && i < |s|
  {
    if i == 0 then 0.0 else Elapsed(s, sqrt, i - 1) + MoveTime(s, sqrt, i)
  }

  /** After the pass, each record's time is the sum of the durations of the
      moves up to it, from the original records alone. */
  lemma {:induction false} TimeIs(s: seq<Command>, sqrt: real -> real, i: nat)
    requires TimeReady(s, sqrt) && i < |s|
    ensures Runs(s, TimeStep(sqrt))
    ensures Propagated(s, TimeStep(sqrt), false)[i].facts.time == Elapsed(s, sqrt, i)
  {
    TimeRuns(s, sqrt);
    TimeAt(s, sqrt, i);
    if i > 0 {
      TimeIs(s, sqrt, i - 1);
      TimeAt(s, sqrt, i - 1);
    }
  }

  // ---------------------------------------------------------------------------
  // Active tool: prop_active_tool

  /** The pass does not fail: a tool change names its tool. */
  predicate ToolDefined(c: Command) {
    IsToolChange(c) ==> 'T' in c.args
  }

  /** The tool selected by the record if it is a tool change, the previous
      record's otherwise; nothing else changes. */
  function ActiveTool(c: Command, prev: Facts): (r: Command)
    requires ToolDefined(c)
    ensures r.facts.activeTool == if IsToolChange(c) then Some(Tool(c)) else prev.activeTool
    ensures r == c.(facts := c.facts.(activeTool := r.facts.activeTool))
  {
    var tool := if IsToolChange(c) then Some(Tool(c)) else prev.activeTool;
    c.(facts := c.facts.(activeTool := tool))
  }

  /** After the pass, the active tool of record i is the one named by the last
      tool change at or before i, and `None` before the first tool change. */
  lemma {:induction false} LastToolChange(s: seq<Command>, i: nat)
    requires forall k :: 0 <= k < |s| ==> ToolDefined(s[k])
    requires i < |s|
    ensures Runs(s, ActiveTool)
    ensures Propagated(s, ActiveTool, false)[i].facts.activeTool.None? <==>
      forall k :: 0 <= k <= i ==> !IsToolChange(s[k])
    ensures forall k, t :: 0 <= k <= i && Selects(s[k], t) && (forall j :: k < j <= i ==> !IsToolChange(s[j])) ==>
      Propagated(s, ActiveTool, false)[i].facts.activeTool == Some(t)
  {
    RunsLocal(s, ActiveTool);
    PropagatedAt(s, ActiveTool, false, i);
    if i > 0 {
      LastToolChange(s, i - 1);
    }
  }

  // ---------------------------------------------------------------------------
  // Next use of each tool: prop_next_needed, visited back to front

  /** The pass does not fail: tool changes name their tool, and `M104`/`M109`
      name both a tool and a temperature. */
  predicate NeedDefined(c: Command) {
    && ToolDefined(c)
    && (IsSetTemp(c) ==> 'T' in c.args && 'S' in c.args)
  }

  /** The record changes to tool t. */
  predicate Selects(c: Command, t: int) {
    IsToolChange(c) && 'T' in c.args && Tool(c) == t
  }

  /** The record sets a target temperature for tool t. */
  predicate Heats(c: Command, t: int) {
    !IsToolChange(c) && IsSetTemp(c) && 'T' in c.args && 'S' in c.args && Tool(c) == t
  }

  /** The maps of the next record (the one visited before), with this record's
      own tool change or temperature entered; nothing else changes. */
  function NextNeeded(c: Command, next: Facts): (r: Command)
    requires NeedDefined(c)
    ensures forall t :: t in r.facts.timeNextNeeded <==> Selects(c, t) || t in next.timeNextNeeded
    ensures forall t :: t in r.facts.timeNextNeeded ==>
      r.facts.timeNextNeeded[t] == if Selects(c, t) then c.facts.time else next.timeNextNeeded[t]
    ensures forall t :: t in r.facts.nextTemp <==> Heats(c, t) || t in next.nextTemp
    ensures forall t :: t in r.facts.nextTemp ==>
      r.facts.nextTemp[t] == if Heats(c, t) then c.args['S'] else next.nextTemp[t]
    ensures r == c.(facts := c.facts.(timeNextNeeded := r.facts.timeNextNeeded, nextTemp := r.facts.nextTemp))
  {
    var needed := if IsToolChange(c) then next.timeNextNeeded[Tool(c) := c.facts.time] else next.timeNextNeeded;
    var temps := if !IsToolChange(c) && IsSetTemp(c) then next.nextTemp[Tool(c) := c.args['S']] else next.nextTemp;
    c.(facts := c.facts.(timeNextNeeded := needed, nextTemp := temps))
  }

  lemma NextNeededRuns(s: seq<Command>)
    requires forall k :: 0 <= k < |s| ==> NeedDefined(s[k])
    ensures Runs(InOrder(s, true), NextNeeded)
  {
    var v := InOrder(s, true);
    assert forall k :: 0 <= k < |v| ==> v[k] == s[|s| - 1 - k];
    RunsLocal(v, NextNeeded);
  }

  /** One record after the backward pass: its maps are those of the record
      after it (empty for the last record), with its own tool change or
      temperature for tool t entered. */
  lemma NeededAt(s: seq<Command>, t: int, i: nat)
    requires forall k :: 0 <= k < |s| ==> NeedDefined(s[k])
    requires i < |s|
    ensures Runs(InOrder(s, true), NextNeeded)
    ensures var r := Propagated(s, NextNeeded, true);
      var next := if i == |s| - 1 then NoFacts else r[i + 1].facts;
      && (t in r[i].facts.timeNextNeeded <==> Selects(s[i], t) || t in next.timeNextNeeded)
      && (t in r[i].facts.timeNextNeeded ==>
            r[i].facts.timeNextNeeded[t] == if Selects(s[i], t) then s[i].facts.time else next.timeNextNeeded[t])
      && (t in r[i].facts.nextTemp <==> Heats(s[i], t) || t in next.nextTemp)
      && (t in r[i].facts.nextTemp ==>
            r[i].facts.nextTemp[t] == if Heats(s[i], t) then s[i].args['S'] else next.nextTemp[t])
  {
    NextNeededRuns(s);
    PropagatedAt(s, NextNeeded, true, i);
  }

  /** After the backward pass, tool t has a next-use time at record i exactly
      when some tool change at or after i selects it, and that time is the
      time of the first such change. */
  lemma {:induction false} FirstSelect(s: seq<Command>, t: int, i: nat)
    requires forall k :: 0 <= k < |s| ==> NeedDefined(s[k])
    requires i < |s|
    ensures Runs(InOrder(s, true), NextNeeded)
    ensures t in Propagated(s, NextNeeded, true)[i].facts.timeNextNeeded <==>
      exists k :: i <= k < |s| && Selects(s[k], t)
    ensures forall k :: i <= k < |s| && Selects(s[k], t) && (forall j :: i <= j < k ==> !Selects(s[j], t)) ==>
      Propagated(s, NextNeeded, true)[i].facts.timeNextNeeded[t] == s[k].facts.time
    decreases |s| - i
  {
    NeededAt(s, t, i);
    if i + 1 < |s| {
      FirstSelect(s, t, i + 1);
    }
  }

  /** After the backward pass, tool t has a next temperature at record i
      exactly when some `M104`/`M109` at or after i names it, and that
      temperature is the `S` of the first such command. */
  lemma {:induction false} FirstHeat(s: seq<Command>, t: int, i: nat)
    requires forall k :: 0 <= k < |s| ==> NeedDefined(s[k])
    requires i < |s|
    ensures Runs(InOrder(s, true), NextNeeded)
    ensures t in Propagated(s, NextNeeded, true)[i].facts.nextTemp <==>
      exists k :: i <= k < |s| && Heats(s[k], t)
    ensures forall k :: i <= k < |s| && Heats(s[k], t) && (forall j :: i <= j < k ==> !Heats(s[j], t)) ==>
      Propagated(s, NextNeeded, true)[i].facts.nextTemp[t] == s[k].args['S']
    decreases |s| - i
  {
    NeededAt(s, t, i);
    if i + 1 < |s| {
      FirstHeat(s, t, i + 1);
    }
  }

  // ---------------------------------------------------------------------------
  // Fan: prop_fan

  /** The pass does not fail: `M106` names a speed. */
  predicate FanDefined(c: Command) {
    c.cmd == Some("M106") ==> 'S' in c.args
  }

  /** The record sets the fan speed: `M106` or `M107`. */
  predicate SetsFan(c: Command) {
    c.cmd.Some? && c.cmd.value in {"M106", "M107"}
  }

  /** The speed an `M106` or `M107` sets. */
  function FanSetting(c: Command): real
    requires SetsFan(c) && FanDefined(c)
  {
    if c.cmd == Some("M106") then c.args['S'] else 0.0
  }

  /** `M106` and `M107` set the fan speed, every other record inherits it; a
      tool change gets the fan switched off before it and restored to the
      inherited speed after it. */
  function Fan(c: Command, prev: Facts): (r: Command)
    requires FanDefined(c)
    ensures r.facts.fanSpeed == if SetsFan(c) then FanSetting(c) else prev.fanSpeed
    ensures IsToolChange(c) ==> r.magicPre == c.magicPre + [FanOff] && r.magicPost == c.magicPost + [SetFan(prev.fanSpeed)]
    ensures !IsToolChange(c) ==> r.magicPre == c.magicPre && r.magicPost == c.magicPost
    ensures r.raw == c.raw && r.cmd == c.cmd && r.args == c.args && r.facts == c.facts.(fanSpeed := r.facts.fanSpeed)
  {
    if c.cmd == Some("M106") then
      c.(facts := c.facts.(fanSpeed := c.args['S']))
    else if c.cmd == Some("M107") then
      c.(facts := c.facts.(fanSpeed := 0.0))
    else if IsToolChange(c) then
      c.(facts := c.facts.(fanSpeed := prev.fanSpeed), magicPre := c.magicPre + [FanOff], magicPost := c.magicPost + [SetFan(prev.fanSpeed)])
    else
      c.(facts := c.facts.(fanSpeed := prev.fanSpeed))
  }

  /** One record after the pass: `M106`/`M107` set the fan speed and every
      other record keeps the one in force before it, 0 for the first record. */
  lemma FanSpeedAt(s: seq<Command>, i: nat)
    requires forall k :: 0 <= k < |s| ==> FanDefined(s[k])
    requires i < |s|
    ensures Runs(s, Fan)
    ensures var r := Propagated(s, Fan, false);
      r[i].facts.fanSpeed == if SetsFan(s[i]) then FanSetting(s[i]) else if i == 0 then 0.0 else r[i - 1].facts.fanSpeed
  {
    RunsLocal(s, Fan);
    PropagatedAt(s, Fan, false, i);
  }

  /** After the pass, a tool change carries one more line before it, fan
      off, and one more after it, the last one, restoring the speed in force
      before it, and keeps that speed; other records carry no new line. The
      line itself is kept. */
  lemma FanBrackets(s: seq<Command>, i: nat)
    requires forall k :: 0 <= k < |s| ==> FanDefined(s[k])
    requires i < |s|
    ensures Runs(s, Fan)
    ensures var r := Propagated(s, Fan, false);
      var before := if i == 0 then 0.0 else r[i - 1].facts.fanSpeed;
      && (IsToolChange(s[i]) ==> r[i].magicPre == s[i].magicPre + [FanOff] && r[i].magicPost == s[i].magicPost + [SetFan(before)])
      && (!IsToolChange(s[i]) ==> r[i].magicPre == s[i].magicPre && r[i].magicPost == s[i].magicPost)
      && (IsToolChange(s[i]) ==> r[i].facts.fanSpeed == before)
      && r[i].raw == s[i].raw && r[i].cmd == s[i].cmd && r[i].args == s[i].args
  {
    RunsLocal(s, Fan);
    PropagatedAt(s, Fan, false, i);
  }

  /** After the pass, the fan speed is 0 up to the first `M106`/`M107`. */
  lemma {:induction false} FanOffAtStart(s: seq<Command>, i: nat)
    requires forall k :: 0 <= k < |s| ==> FanDefined(s[k])
    requires i < |s| && forall k :: 0 <= k <= i ==> !SetsFan(s[k])
    ensures Runs(s, Fan)
    ensures Propagated(s, Fan, false)[i].facts.fanSpeed == 0.0
  {
    FanSpeedAt(s, i);
    if i > 0 {
      FanOffAtStart(s, i - 1);
    }
  }

  /** After the pass, the fan speed of record i is the one set by the last
      `M106`/`M107` at or before i. */
  lemma {:induction false} LastFanSetting(s: seq<Command>, i: nat)
    requires forall k :: 0 <= k < |s| ==> FanDefined(s[k])
    requires i < |s|
    ensures Runs(s, Fan)
    ensures forall k :: 0 <= k <= i && SetsFan(s[k]) && (forall j :: k < j <= i ==> !SetsFan(s[j])) ==>
      Propagated(s, Fan, false)[i].facts.fanSpeed == FanSetting(s[k])
  {
    FanSpeedAt(s, i);
    if i > 0 {
      LastFanSetting(s, i - 1);
    }
  }

}
