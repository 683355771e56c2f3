/** The command record of tool-wizard: one line of G-code, the facts the passes
    derive for it, and the lines inserted before and after it. Also the line
    parser (the `Command` constructor) and the serialiser (`Command.output`). */
module GCode {
  import opened Text

  datatype Option<+T> = None | Some(value: T)

  /** Degrees below the target temperature at which a tool that is not needed
      soon is held. */
  const IdleTempDelta: real := 65.0

  /** Time (seconds of estimated print time) before its next use at which a
      tool starts heating. */
  const PreheatTime: real := 9.0

  /** Appended to every line tool-wizard inserts; `;` starts a comment, so the
      tag itself is ignored by anything that reads the G-code. */
  const InsertedTag: string := " ; inserted by tool-wizard"

  /** The facts the six passes derive for one record. `NoFacts` stands for the
      empty facts mapping: each field holds the default the script reads when
      the fact is missing (`None` for positions, feed and tool, `0.0` for time
      and fan speed, empty maps for the schedules). `heating` is an `Option`
      because the preheat pass tests whether the previous record has it at all. */
  datatype Facts = Facts(
    x: Option<real>,
    y: Option<real>,
    feed: Option<real>,
    time: real,
    activeTool: Option<int>,
    timeNextNeeded: map<int, real>,
    nextTemp: map<int, real>,
    heating: Option<set<int>>,
    fanSpeed: real)

  const NoFacts: Facts := Facts(None, None, None, 0.0, None, map[], map[], None, 0.0)

  /** A line that a pass inserts: `M104 T<t> S<temp>`, `M104 T<t> S0`,
      `M106 S0` and `M106 S<speed>`. */
  datatype Line =
    | SetTemp(tool: int, temp: real)
    | ToolOff(tool: int)
    | FanOff
    | SetFan(speed: real)
  {
    /** A heater line, one that names a tool. */
    predicate Heater() { SetTemp? || ToolOff? }
  }

  /** One line of the file. `cmd` is the first word, or `None` when the line is
      blank, a comment, or holds a word that does not parse; `args` maps each
      letter to the number written after it. */
  datatype Command = Command(
    raw: string,
    cmd: Option<string>,
    args: map<char, real>,
    facts: Facts,
    magicPre: seq<Line>,
    magicPost: seq<Line>)

  // ---------------------------------------------------------------------------
  // Words and numbers

  predicate IsDigit(ch: char) { '0' <= ch <= '9' }

  predicate IsNumberChar(ch: char) { IsDigit(ch) || ch == '.' || ch == '+' || ch == '-' }

  /** A word matching `[A-Z][0-9.+-]*` in full. */
  predicate IsWord(w: string) {
    |w| > 0 && 'A' <= w[0] <= 'Z' && forall k :: 1 <= k < |w| ==> IsNumberChar(w[k])
  }

  predicate AllDigits(s: string) { forall k :: 0 <= k < |s| ==> IsDigit(s[k]) }

  /** `s` without one leading sign. */
  function Unsigned(s: string): string {
    if |s| > 0 && (s[0] == '+' || s[0] == '-') then s[1..] else s
  }

  function Sign(s: string): real {
    if |s| > 0 && s[0] == '-' then -1.0 else 1.0
  }

  /** Length of the run of digits that starts `s`. */
  function DigitRun(s: string): (n: nat)
    ensures n <= |s| && AllDigits(s[..n])
    ensures n < |s| ==> !IsDigit(s[n])
  {
    if |s| == 0 || !IsDigit(s[0]) then 0 else 1 + DigitRun(s[1..])
  }

  /** Text that Python's `int()` accepts: an optional sign, then digits. */
  predicate IntText(s: string) {
    var u := Unsigned(s);
    |u| > 0 && AllDigits(u)
  }

  /** Text made of `[0-9.+-]` that Python's `float()` accepts: an optional
      sign, then digits with at most one `.` among them and at least one digit. */
  predicate FloatText(s: string) {
    var u := Unsigned(s);
    var n := DigitRun(u);
    |u| > 0 && (n == |u| || (u[n] == '.' && |u| >= 2 && AllDigits(u[n + 1..])))
  }

  function DigitsValue(d: string): nat
    requires AllDigits(d)
  {
    if |d| == 0 then 0 else 10 * DigitsValue(d[..|d| - 1]) + (d[|d| - 1] as int - '0' as int)
  }

  function Pow10(k: nat): (r: nat)
    ensures r >= 1
  {
    if k == 0 then 1 else 10 * Pow10(k - 1)
  }

  /** The value of `int(s)`. */
  function IntValue(s: string): int
    requires IntText(s)
  {
    var v: int := DigitsValue(Unsigned(s));
    if |s| > 0 && s[0] == '-' then -v else v
  }

  /** The exact decimal value of `float(s)`. */
  function FloatValue(s: string): real
    requires FloatText(s)
  {
    var u := Unsigned(s);
    var n := DigitRun(u);
    var whole := DigitsValue(u[..n]) as real;
    var frac := if n < |u| then DigitsValue(u[n + 1..]) as real / Pow10(|u| - n - 1) as real else 0.0;
    Sign(s) * (whole + frac)
  }

  lemma {:induction false} DigitsOfNat(n: nat)
    ensures AllDigits(NatToString(n)) && DigitsValue(NatToString(n)) == n
    decreases n
  {
    var r := NatToString(n);
    if n >= 10 {
      DigitsOfNat(n / 10);
      assert r[..|r| - 1] == NatToString(n / 10);
    }
  }

  /** `int()` reads back what `str()` writes for an int. */
  lemma IntRoundTrip(i: int)
    ensures IntText(IntToString(i)) && IntValue(IntToString(i)) == i
  {
    var s := IntToString(i);
    if i < 0 {
      DigitsOfNat(-i);
      assert Unsigned(s) == NatToString(-i);
    } else {
      DigitsOfNat(i);
      assert Unsigned(s) == NatToString(i);
    }
  }

  lemma {:induction false} DigitRunOfDigits(d: string, rest: string)
    requires AllDigits(d) && (|rest| > 0 ==> !IsDigit(rest[0]))
    ensures DigitRun(d + rest) == |d|
    decreases |d|
  {
    if |d| > 0 {
      assert (d + rest)[1..] == d[1..] + rest;
      DigitRunOfDigits(d[1..], rest);
    }
  }

  /** Digits written after other digits scale them by a power of ten. */
  lemma {:induction false} DigitsAppend(a: string, b: string)
    requires AllDigits(a) && AllDigits(b)
    ensures AllDigits(a + b)
    ensures DigitsValue(a + b) == DigitsValue(a) * Pow10(|b|) + DigitsValue(b)
    decreases |b|
  {
    if |b| == 0 {
      assert a + b == a;
    } else {
      var b' := b[..|b| - 1];
      assert (a + b)[..|a + b| - 1] == a + b';
      DigitsAppend(a, b');
      calc {
        DigitsValue(a + b);
        10 * DigitsValue(a + b') + (b[|b| - 1] as int - '0' as int);
        10 * (DigitsValue(a) * Pow10(|b'|) + DigitsValue(b')) + (b[|b| - 1] as int - '0' as int);
        { assert 10 * (DigitsValue(a) * Pow10(|b'|)) == DigitsValue(a) * (10 * Pow10(|b'|)); }
        DigitsValue(a) * Pow10(|b|) + DigitsValue(b);
      }
    }
  }

  /** `float()` of integer text is the value `int()` gives it. */
  lemma FloatOfInt(s: string)
    requires IntText(s)
    ensures FloatText(s) && FloatValue(s) == IntValue(s) as real
  {
    var u := Unsigned(s);
    DigitRunOfDigits(u, []);
    assert u + [] == u && u[..|u|] == u;
  }

  lemma FloatParts(d: string, e: string)
    requires AllDigits(d) && AllDigits(e) && |d| + |e| > 0
    ensures FloatText(d + "." + e)
    ensures FloatValue(d + "." + e) == DigitsValue(d) as real + DigitsValue(e) as real / Pow10(|e|) as real
  {
    var s := d + "." + e;
    assert s == d + ("." + e);
    DigitRunOfDigits(d, "." + e);
    if |d| > 0 {
      assert s[0] == d[0];
    } else {
      assert s[0] == '.';
    }
    assert Unsigned(s) == s;
    assert s[..|d|] == d && s[|d| + 1..] == e;
  }

  /** `float()` of decimal text `d.e` is exact: the digits of `d` and `e`
      read as one integer, divided by ten to the number of digits of `e`. */
  lemma FloatDecimal(d: string, e: string)
    requires AllDigits(d) && AllDigits(e) && |d| + |e| > 0
    ensures FloatText(d + "." + e)
    ensures FloatValue(d + "." + e) == DigitsValue(d + e) as real / Pow10(|e|) as real
  {
    FloatParts(d, e);
    DigitsAppend(d, e);
    Rescale(FloatValue(d + "." + e), DigitsValue(d), DigitsValue(e), Pow10(|e|), DigitsValue(d + e));
  }

  lemma Rescale(v: real, x: nat, y: nat, p: nat, w: nat)
    requires p > 0 && v == x as real + y as real / p as real && w == x * p + y
    ensures v == w as real / p as real
  {
    assert (x * p) as real == x as real * p as real;
  }

  /** The number of a word converts: the tool letter `T` with `int()`, every
      other letter with `float()`. */
  predicate Converts(w: string) {
    |w| > 0 && if w[0] == 'T' then IntText(w[1..]) else FloatText(w[1..])
  }

  /** The value stored under the word's letter. */
  function WordValue(w: string): real
    requires Converts(w)
  {
    if w[0] == 'T' then IntValue(w[1..]) as real else FloatValue(w[1..])
  }

  /** The words of a line once its comment is removed. */
  function Tokens(raw: string): (ws: seq<string>)
    ensures forall k :: 0 <= k < |ws| ==> |ws[k]| > 0
  {
    Words(TrimComment(raw))
  }

  /** Some word of the line does not match the word pattern. */
  predicate Bails(ws: seq<string>) {
    exists k :: 0 <= k < |ws| && !IsWord(ws[k])
  }

  /** Every word the parser reaches before giving up converts without error
      (`float('')` on a bare `G`, `int('1.5')` on `T1.5` raise). */
  predicate Convertible(ws: seq<string>) {
    forall k :: 0 <= k < |ws| && (forall j :: 0 <= j <= k ==> IsWord(ws[j])) ==> Converts(ws[k])
  }

  /** Word `k` is the last one that carries its letter. */
  predicate LastOfLetter(ws: seq<string>, k: int)
    requires 0 <= k < |ws| && forall i :: 0 <= i < |ws| ==> |ws[i]| > 0
  {
    forall i :: k < i < |ws| ==> ws[i][0] != ws[k][0]
  }

  // ---------------------------------------------------------------------------
  // The record: parsing and output

  /** The arguments of a line whose words all convert: each word, read left
      to right, stores its value under its letter. */
  function ArgsOf(ws: seq<string>): map<char, real>
    requires forall j :: 0 <= j < |ws| ==> Converts(ws[j])
  {
    if |ws| == 0 then map[]
    else
      var last := ws[|ws| - 1];
      assert Converts(last);
      ArgsOf(ws[..|ws| - 1])[last[0] := WordValue(last)]
  }

  /** The letters that have an argument are those that start some word. */
  lemma {:induction false} ArgsLetters(ws: seq<string>)
    requires forall j :: 0 <= j < |ws| ==> Converts(ws[j])
    ensures forall letter :: letter in ArgsOf(ws) <==> exists k :: 0 <= k < |ws| && ws[k][0] == letter
  {
    if |ws| > 0 {
      var init := ws[..|ws| - 1];
      ArgsLetters(init);
      assert forall k :: 0 <= k < |init| ==> init[k] == ws[k];
    }
  }

  /** A letter's argument is the value of the last word that carries it. */
  lemma {:induction false} ArgsLast(ws: seq<string>, k: nat)
    requires forall j :: 0 <= j < |ws| ==> |ws[j]| > 0 && Converts(ws[j])
    requires k < |ws| && LastOfLetter(ws, k)
    ensures ws[k][0] in ArgsOf(ws) && ArgsOf(ws)[ws[k][0]] == WordValue(ws[k])
  {
    if k < |ws| - 1 {
      var init := ws[..|ws| - 1];
      assert forall i :: k < i < |init| ==> init[i] == ws[i];
      ArgsLast(init, k);
    }
  }

  /** Reads the words of a line left to right, as the `Command` constructor
      does. The first word is the command and is also stored as an argument; a
      later word with the same letter replaces the earlier value; the first word
      that does not match the word pattern makes the whole line one without a
      command or arguments. */
  method ParseWords(words: seq<string>) returns (cmd: Option<string>, args: map<char, real>)
    requires forall k :: 0 <= k < |words| ==> |words[k]| > 0
    requires Convertible(words)
    ensures cmd.None? <==> |words| == 0 || Bails(words)
    ensures cmd.Some? ==> cmd.value == words[0]
    ensures Bails(words) ==> args == map[]
    ensures !Bails(words) ==> (forall k :: 0 <= k < |words| ==> Converts(words[k])) && args == ArgsOf(words)
  {
    cmd, args := None, map[];
    var k := 0;
    while k < |words|
      invariant 0 <= k <= |words|
      invariant forall j :: 0 <= j < k ==> IsWord(words[j]) && Converts(words[j])
      invariant cmd == if k == 0 then None else Some(words[0])
      invariant args == ArgsOf(words[..k])
    {
      var word := words[k];
      if !IsWord(word) {
        assert Bails(words);
        return None, map[];
      }
      assert forall j :: 0 <= j <= k ==> IsWord(words[j]);
      if cmd.None? {
        cmd := Some(word);
      }
      assert words[..k + 1][..k] == words[..k];
      args := args[word[0] := WordValue(word)];
      k := k + 1;
    }
    assert !Bails(words);
    assert words[..k] == words;
  }

  /** The `Command` constructor: the record of one line of the file, with its
      trailing whitespace stripped, its comment removed and its words read;
      no facts and nothing inserted yet. `line` is one line of the file, so a
      line break can only end it. */
  method NewCommand(line: string) returns (c: Command)
    requires forall k :: 0 <= k < |line| - 1 ==> line[k] != '\n'
    requires Convertible(Tokens(RStrip(line)))
    ensures c.raw == RStrip(line)
    ensures c.facts == NoFacts && c.magicPre == [] && c.magicPost == []
    ensures c.cmd.None? <==> |Tokens(c.raw)| == 0 || Bails(Tokens(c.raw))
    ensures c.cmd.Some? ==> c.cmd.value == Tokens(c.raw)[0]
    ensures c.cmd.Some? ==> |c.cmd.value| > 0 && c.cmd.value[0] in c.args
    ensures forall letter :: letter in c.args <==>
      !Bails(Tokens(c.raw)) && exists k :: 0 <= k < |Tokens(c.raw)| && Tokens(c.raw)[k][0] == letter
    ensures forall k :: 0 <= k < |Tokens(c.raw)| && !Bails(Tokens(c.raw)) && LastOfLetter(Tokens(c.raw), k) ==>
      Converts(Tokens(c.raw)[k]) && c.args[Tokens(c.raw)[k][0]] == WordValue(Tokens(c.raw)[k])
  {
    var raw := RStrip(line);
    var words := Tokens(raw);
    var cmd, args := ParseWords(words);
    if !Bails(words) {
      ArgsLetters(words);
      forall k | 0 <= k < |words| && LastOfLetter(words, k)
        ensures words[k][0] in args && args[words[k][0]] == WordValue(words[k])
      {
        ArgsLast(words, k);
      }
    }
    c := Command(raw, cmd, args, NoFacts, [], []);
  }

  /** Words written with one space between each. */
  function Spaced(ws: seq<string>): string {
    if |ws| == 0 then []
    else if |ws| == 1 then ws[0]
    else ws[0] + [' '] + Spaced(ws[1..])
  }

  /** The words of an inserted line: `M104 T<t> S<temp>`, `M104 T<t> S0`,
      `M106 S0` and `M106 S<speed>`. */
  function LineWords(l: Line, fmt: real -> string): seq<string> {
    match l
    case SetTemp(t, temp) => ["M104", "T" + IntToString(t), "S" + fmt(temp)]
    case ToolOff(t) => ["M104", "T" + IntToString(t), "S0"]
    case FanOff => ["M106", "S0"]
    case SetFan(speed) => ["M106", "S" + fmt(speed)]
  }

  /** The text of an inserted line, without its tag. `fmt` is Python's
      rendering of a float, which this model does not define. */
  function Render(l: Line, fmt: real -> string): string {
    Spaced(LineWords(l, fmt))
  }

  /** An inserted line as written: rendered, then tagged. */
  function Tagged(l: Line, fmt: real -> string): string {
    Render(l, fmt) + InsertedTag
  }

  /** `fmt` writes `x` as decimal text that `float()` reads back as `x`. */
  predicate Renders(fmt: real -> string, x: real) {
    FloatText(fmt(x)) && FloatValue(fmt(x)) == x
  }

  /** The arguments the parser should find on an inserted line. */
  function LineArgs(l: Line): map<char, real> {
    match l
    case SetTemp(t, temp) => map['M' := 104.0, 'T' := t as real, 'S' := temp]
    case ToolOff(t) => map['M' := 104.0, 'T' := t as real, 'S' := 0.0]
    case FanOff => map['M' := 106.0, 'S' := 0.0]
    case SetFan(speed) => map['M' := 106.0, 'S' := speed]
  }

  lemma NumberChars(s: string)
    requires FloatText(s)
    ensures forall k :: 0 <= k < |s| ==> IsNumberChar(s[k])
  {
    var u := Unsigned(s);
    var off := |s| - |u|;
    var n := DigitRun(u);
    forall k | 0 <= k < |s|
      ensures IsNumberChar(s[k])
    {
      if k >= off {
        assert s[k] == u[k - off];
        if k - off < n {
          assert u[..n][k - off] == u[k - off];
        } else if k - off > n {
          assert u[n + 1..][k - off - n - 1] == u[k - off];
        }
      }
    }
  }

  lemma IntChars(i: int)
    ensures forall k :: 0 <= k < |IntToString(i)| ==> IsNumberChar(IntToString(i)[k])
  {
  }

  /** A word is whitespace-free and holds no `;`. */
  lemma WordPlain(w: string)
    requires IsWord(w)
    ensures forall k :: 0 <= k < |w| ==> !IsSpace(w[k]) && w[k] != ';'
  {
  }

  /** Words written with spaces between them split back into those words. */
  lemma {:induction false} WordsOfSpaced(ws: seq<string>)
    requires forall k :: 0 <= k < |ws| ==> IsWord(ws[k])
    ensures Words(Spaced(ws)) == ws
    ensures ';' !in Spaced(ws)
    decreases |ws|
  {
    if |ws| > 0 {
      WordPlain(ws[0]);
      WordsOfWord(ws[0]);
      if |ws| > 1 {
        WordsOfSpaced(ws[1..]);
        WordsSplit(ws[0], ' ', Spaced(ws[1..]));
        assert ws == [ws[0]] + ws[1..];
      }
    }
  }

  /** Text before ` ;` keeps the space and loses everything from the `;` on. */
  lemma TrimBefore(x: string, y: string)
    requires ';' !in x && |y| > 1 && y[0] == ' ' && y[1] == ';'
    ensures TrimComment(x + y) == x + [' ']
  {
    var s := x + y;
    assert s[|x|] == ' ' && s[|x| + 1] == ';';
    assert s[..|x| + 1] == x + [' '];
  }


  lemma ArgsOfTwo(a: string, b: string)
    requires Converts(a) && Converts(b)
    ensures ArgsOf([a, b]) == map[a[0] := WordValue(a), b[0] := WordValue(b)]
  {
    assert [a, b][..1] == [a];
    assert [a][..0] == [];
    assert ArgsOf([a]) == map[a[0] := WordValue(a)];
  }

  lemma ArgsOfThree(a: string, b: string, c: string)
    requires Converts(a) && Converts(b) && Converts(c)
    ensures ArgsOf([a, b, c]) == map[a[0] := WordValue(a), b[0] := WordValue(b), c[0] := WordValue(c)]
  {
    assert [a, b, c][..2] == [a, b];
    ArgsOfTwo(a, b);
  }

  lemma HeaterWord()
    ensures IsWord("M104") && Converts("M104") && WordValue("M104") == 104.0
  {
    assert "M104"[1..] == "104";
    assert DigitsValue("104") == 104 by {
      assert "104"[..2] == "10" && "10"[..1] == "1" && "1"[..0] == "";
    }
    FloatOfInt("104");
  }

  lemma FanWord()
    ensures IsWord("M106") && Converts("M106") && WordValue("M106") == 106.0
  {
    assert "M106"[1..] == "106";
    assert DigitsValue("106") == 106 by {
      assert "106"[..2] == "10" && "10"[..1] == "1" && "1"[..0] == "";
    }
    FloatOfInt("106");
  }

  lemma ZeroWord()
    ensures IsWord("S0") && Converts("S0") && WordValue("S0") == 0.0
  {
    assert "S0"[1..] == "0";
    assert DigitsValue("0") == 0 by {
      assert "0"[..0] == "";
    }
    FloatOfInt("0");
  }

  lemma ToolWord(t: int)
    ensures IsWord("T" + IntToString(t)) && Converts("T" + IntToString(t))
    ensures WordValue("T" + IntToString(t)) == t as real
  {
    var w := "T" + IntToString(t);
    IntChars(t);
    IntRoundTrip(t);
    assert w[1..] == IntToString(t);
  }

  lemma ValueWord(fmt: real -> string, x: real)
    requires Renders(fmt, x)
    ensures IsWord("S" + fmt(x)) && Converts("S" + fmt(x)) && WordValue("S" + fmt(x)) == x
  {
    var w := "S" + fmt(x);
    NumberChars(fmt(x));
    assert w[1..] == fmt(x);
  }

  /** Words that match the word pattern, convert, and store `args`. */
  predicate ReadsAs(ws: seq<string>, args: map<char, real>) {
    && |ws| > 0 && (forall k :: 0 <= k < |ws| ==> IsWord(ws[k]) && Converts(ws[k]))
    && ArgsOf(ws) == args
  }

  lemma ThreeRead(a: string, b: string, c: string, va: real, vb: real, vc: real)
    requires IsWord(a) && Converts(a) && WordValue(a) == va
    requires IsWord(b) && Converts(b) && WordValue(b) == vb
    requires IsWord(c) && Converts(c) && WordValue(c) == vc
    ensures ReadsAs([a, b, c], map[a[0] := va, b[0] := vb, c[0] := vc])
  {
    ArgsOfThree(a, b, c);
  }

  lemma TwoRead(a: string, b: string, va: real, vb: real)
    requires IsWord(a) && Converts(a) && WordValue(a) == va
    requires IsWord(b) && Converts(b) && WordValue(b) == vb
    ensures ReadsAs([a, b], map[a[0] := va, b[0] := vb])
  {
    ArgsOfTwo(a, b);
  }

  /** The words of an inserted line match the word pattern, convert, and
      store the line's arguments. */
  lemma LineWordsRead(l: Line, fmt: real -> string)
    requires l.SetTemp? ==> Renders(fmt, l.temp)
    requires l.SetFan? ==> Renders(fmt, l.speed)
    ensures ReadsAs(LineWords(l, fmt), LineArgs(l))
  {
    match l
    case SetTemp(t, temp) =>
      HeaterWord();
      ToolWord(t);
      ValueWord(fmt, temp);
      ThreeRead("M104", "T" + IntToString(t), "S" + fmt(temp), 104.0, t as real, temp);
    case ToolOff(t) =>
      HeaterWord();
      ToolWord(t);
      ZeroWord();
      ThreeRead("M104", "T" + IntToString(t), "S0", 104.0, t as real, 0.0);
    case FanOff =>
      FanWord();
      ZeroWord();
      TwoRead("M106", "S0", 106.0, 0.0);
    case SetFan(speed) =>
      FanWord();
      ValueWord(fmt, speed);
      TwoRead("M106", "S" + fmt(speed), 106.0, speed);
  }

  /** The tag starts with a space and a `;` and does not end in whitespace. */
  lemma TagShape()
    ensures |InsertedTag| > 1 && InsertedTag[0] == ' ' && InsertedTag[1] == ';'
    ensures !IsSpace(InsertedTag[|InsertedTag| - 1])
  {
  }

  /** Words followed by a tag that starts a comment read back as those words. */
  lemma TaggedWords(ws: seq<string>, tag: string)
    requires forall k :: 0 <= k < |ws| ==> IsWord(ws[k])
    requires |tag| > 1 && tag[0] == ' ' && tag[1] == ';' && !IsSpace(tag[|tag| - 1])
    ensures Tokens(RStrip(Spaced(ws) + tag)) == ws
  {
    var x := Spaced(ws);
    var s := x + tag;
    assert s[|s| - 1] == tag[|tag| - 1];
    assert RStrip(s) == s;
    WordsOfSpaced(ws);
    TrimBefore(x, tag);
    WordsSplit(x, ' ', []);
    assert x + [' '] + [] == x + [' '];
  }

  /** An inserted line as written reads back, by the script's own parser, as
      the line it came from: every word matches the word pattern and
      converts, the command is `M104` for a heater line and `M106` for a fan
      line, and the arguments are its tool, temperature or speed. The
      numbers read back provided `fmt` writes them as decimal text. */
  lemma TaggedReads(l: Line, fmt: real -> string)
    requires l.SetTemp? ==> Renders(fmt, l.temp)
    requires l.SetFan? ==> Renders(fmt, l.speed)
    ensures var ws := Tokens(RStrip(Tagged(l, fmt)));
      && |ws| > 0 && !Bails(ws) && Convertible(ws) && (forall k :: 0 <= k < |ws| ==> Converts(ws[k]))
      && ws[0] == (if l.Heater() then "M104" else "M106")
      && ArgsOf(ws) == LineArgs(l)
  {
    LineWordsRead(l, fmt);
    TagShape();
    TaggedWords(LineWords(l, fmt), InsertedTag);
  }

  /** Inserted lines, each written as `write` renders it, in order. */
  method WriteAll(lines: seq<Line>, write: Line -> string) returns (out: seq<string>)
    ensures |out| == |lines|
    ensures forall k :: 0 <= k < |lines| ==> out[k] == write(lines[k])
  {
    out := [];
    for k := 0 to |lines|
      invariant |out| == k
      invariant forall j :: 0 <= j < k ==> out[j] == write(lines[j])
    {
      out := out + [write(lines[k])];
    }
  }

  /** The output lines of one record (each written followed by a newline):
      the pre-insertions, the original text, then the post-insertions, every
      inserted line tagged. */
  method Output(c: Command, fmt: real -> string) returns (out: seq<string>)
    ensures |out| == |c.magicPre| + 1 + |c.magicPost|
    ensures forall k :: 0 <= k < |c.magicPre| ==> out[k] == Tagged(c.magicPre[k], fmt)
    ensures out[|c.magicPre|] == c.raw
    ensures forall k :: 0 <= k < |c.magicPost| ==> out[|c.magicPre| + 1..][k] == Tagged(c.magicPost[k], fmt)
  {
    var pre := WriteAll(c.magicPre, l => Tagged(l, fmt));
    var post := WriteAll(c.magicPost, l => Tagged(l, fmt));
    out := pre + [c.raw] + post;
    assert out[|pre| + 1..] == post;
  }
}
