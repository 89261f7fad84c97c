/**
 The input side of game.py: the lines the player types at the main menu
 and in the equip sub-menu, turned into the engine's commands.

 `input()` returns a line without its newline. The main menu compares the
 line with "1" to "5" exactly; the sub-menu first lower-cases it and
 compares with "done", then asks whether it is all digits. Only ASCII
 letters and digits are treated here.
 */
module Console {
  import opened Engine

  /** ASCII lower-casing of one character, the part of `str.lower` that can matter here. */
  function LowerChar(c: char): (r: char)
    ensures 'A' <= c <= 'Z' ==> 'a' <= r <= 'z' && r as int - c as int == 'a' as int - 'A' as int
    ensures !('A' <= c <= 'Z') ==> r == c
  {
    if 'A' <= c <= 'Z' then (c as int - 'A' as int + 'a' as int) as char else c
  }

  function Lower(s: string): (r: string)
    ensures |r| == |s|
    ensures forall i :: 0 <= i < |s| ==> r[i] == LowerChar(s[i])
  {
    if |s| == 0 then [] else [LowerChar(s[0])] + Lower(s[1..])
  }

  predicate IsDigit(c: char) {
    '0' <= c <= '9'
  }

  /** `str.isdigit` on ASCII text: at least one character, all of them digits. */
  predicate AllDigits(s: string) {
    |s| > 0 && forall i :: 0 <= i < |s| ==> IsDigit(s[i])
  }

  /** `int(s)` for a string of decimal digits; leading zeros are allowed. */
  function DigitsValue(s: string): (n: nat)
    requires forall i :: 0 <= i < |s| ==> IsDigit(s[i])
  {
    if |s| == 0 then 0
    else
      assert IsDigit(s[|s| - 1]);
      DigitsValue(s[..|s| - 1]) * 10 + (s[|s| - 1] as int - '0' as int)
  }

  /** The decimal text `str(n)`, as the sub-menu prints each item's number. */
  function NatToDigits(n: nat): (s: string)
    ensures AllDigits(s)
    ensures s[0] != '0' || n == 0
  {
    if n < 10 then [('0' as int + n) as char]
    else NatToDigits(n / 10) + [('0' as int + n % 10) as char]
  }

  /** How the equip sub-menu reads one line. */
  function ClassifyEquipInput(line: string): (r: EquipInput)
    ensures r == Done <==> Lower(line) == "done"
    ensures r.Digit? <==> Lower(line) != "done" && AllDigits(line)
    ensures r.Digit? ==> r.n == DigitsValue(line)
  {
    if Lower(line) == "done" then Done
    else if AllDigits(line) then Digit(DigitsValue(line))
    else NonDigit
  }

  /** The number printed beside an item reads back as that number. */
  lemma {:induction false} DigitsRoundTrip(n: nat)
    ensures DigitsValue(NatToDigits(n)) == n
  {
    var s := NatToDigits(n);
    if n >= 10 {
      DigitsRoundTrip(n / 10);
      assert s[..|s| - 1] == NatToDigits(n / 10);
    }
  }

  /** Typing the number shown beside an item selects that item. */
  lemma TypedNumberSelects(n: nat)
    ensures ClassifyEquipInput(NatToDigits(n)) == Digit(n)
  {
    var s := NatToDigits(n);
    DigitsRoundTrip(n);
    assert Lower(s)[0] == s[0];
    assert Lower(s) != "done";
  }

  /** Typing the number printed beside item `i + 1` and then "done" selects exactly position `i`. */
  lemma TypedNumberEquips(st: GameState, i: nat, rest: seq<string>)
    requires Terminating(st)
    ensures SubMenu([NatToDigits(i + 1), "done"] + rest) == ([Digit(i + 1), Done], rest)
    ensures Step(st, EquipChoice([Digit(i + 1), Done])) == Playing(Select(st, i))
  {
    TypedNumberSelects(i + 1);
    var lines := [NatToDigits(i + 1), "done"] + rest;
    assert lines[0] == NatToDigits(i + 1);
    assert lines[1..] == ["done"] + rest;
    assert Lower("done") == "done";
    assert SubMenu(lines[1..]) == ([Done], rest) by {
      assert lines[1..][0] == "done";
      assert lines[1..][1..] == rest;
    }
    assert ClassifyEquipInput(lines[0]) == Digit(i + 1);
    assert SubMenu(lines) == ([Digit(i + 1)] + [Done], rest);
    assert [Digit(i + 1)] + [Done] == [Digit(i + 1), Done];
    var inputs := [Digit(i + 1), Done];
    assert inputs[1..] == [Done];
    assert EquipMenu(st, inputs) == EquipMenu(Select(st, i), [Done]);
  }

  /** Line "3" opens the sub-menu: the lines up to the first "done" become its inputs. */
  lemma EquipLineOpensSubMenu(lines: seq<string>)
    ensures Commands(["3"] + lines) == [EquipChoice(SubMenu(lines).0)] + Commands(SubMenu(lines).1)
  {
    assert (["3"] + lines)[1..] == lines;
  }

  /** "done" is recognised in any mix of upper and lower case. */
  lemma DoneInAnyCase()
    ensures ClassifyEquipInput("done") == Done
    ensures ClassifyEquipInput("DONE") == Done
    ensures ClassifyEquipInput("Done") == Done
    ensures ClassifyEquipInput("") == NonDigit
    ensures ClassifyEquipInput("done ") == NonDigit
  {
    assert Lower("done ")[4] == ' ';
    assert !AllDigits("done ") by { assert !IsDigit("done "[0]); }
  }

  /** A main-menu line other than "3", which opens the equip sub-menu. */
  function MainChoice(line: string): (r: Command)
    requires line != "3"
    ensures !r.EquipChoice?
    ensures r == FightChoice <==> line == "1"
    ensures r == SleepChoice <==> line == "2"
    ensures r == PotionChoice <==> line == "4"
    ensures r == QuitChoice <==> line == "5"
  {
    if line == "1" then FightChoice
    else if line == "2" then SleepChoice
    else if line == "4" then PotionChoice
    else if line == "5" then QuitChoice
    else OtherChoice
  }

  /** What each main-menu line does to the game: "1" fights unless the monster is beaten,
      "2" sleeps, "4" tries the potion, "5" quits, and any other line except "3" re-prompts. */
  lemma MainMenuDispatch(st: GameState, line: string)
    requires Terminating(st) && line != "3"
    ensures line == "1" && !st.defeated ==> Step(st, MainChoice(line)) == FightTurn(st)
    ensures line == "1" && st.defeated ==> Step(st, MainChoice(line)) == Playing(st)
    ensures line == "2" ==> Step(st, MainChoice(line)) == Playing(SleepTurn(st))
    ensures line == "4" ==> Step(st, MainChoice(line)) == PotionTurn(st)
    ensures line == "5" ==> Step(st, MainChoice(line)) == Quit(st)
    ensures line != "1" && line != "2" && line != "4" && line != "5" ==>
              Step(st, MainChoice(line)) == Playing(st)
  {
  }

  /** The sub-menu consumes lines up to and including the first "done"; `rest` is what the main menu reads next. */
  function SubMenu(lines: seq<string>): (r: (seq<EquipInput>, seq<string>))
    ensures |r.0| + |r.1| == |lines|
    ensures r.1 == lines[|r.0|..]
    ensures forall i :: 0 <= i < |r.0| ==> r.0[i] == ClassifyEquipInput(lines[i])
    ensures forall i :: 0 <= i < |r.0| - 1 ==> r.0[i] != Done
    ensures |r.1| > 0 ==> |r.0| > 0 && r.0[|r.0| - 1] == Done
  {
    if |lines| == 0 then ([], [])
    else
      var input := ClassifyEquipInput(lines[0]);
      if input == Done then ([Done], lines[1..])
      else
        var (inputs, rest) := SubMenu(lines[1..]);
        ([input] + inputs, rest)
  }

  /** The commands a sequence of typed lines amounts to. */
  function Commands(lines: seq<string>): (cmds: seq<Command>)
    ensures |cmds| <= |lines|
    ensures PotionChoice in cmds ==> "4" in lines
    ensures QuitChoice in cmds ==> "5" in lines
    decreases |lines|
  {
    if |lines| == 0 then []
    else if lines[0] == "3" then
      var (inputs, rest) := SubMenu(lines[1..]);
      [EquipChoice(inputs)] + Commands(rest)
    else [MainChoice(lines[0])] + Commands(lines[1..])
  }

  /** Any main-menu line other than "3" becomes one command, `MainChoice(line)`, and reading goes on with the next line. */
  lemma MainLineParsed(line: string, rest: seq<string>)
    requires line != "3"
    ensures Commands([line] + rest) == [MainChoice(line)] + Commands(rest)
  {
    assert ([line] + rest)[1..] == rest;
  }

  /** The first typed line runs its turn, and the session carries on from there unless the turn ended the game. */
  lemma SessionStep(st: GameState, line: string, rest: seq<string>)
    requires Terminating(st) && line != "3"
    ensures var r := Step(st, MainChoice(line));
            Session(st, [line] + rest) == if r.Playing? then Session(r.state, rest) else r
  {
    MainLineParsed(line, rest);
    PlaySplit(st, [MainChoice(line)], Commands(rest));
    PlayOne(st, MainChoice(line));
  }

  /** Typing "5" quits at once with the state as it is; typing "1" against a standing monster fights. */
  lemma SessionExamples(st: GameState, rest: seq<string>)
    requires Terminating(st)
    ensures Session(st, ["5"] + rest) == Quit(st)
    ensures !st.defeated && !FightTurn(st).Playing? ==> Session(st, ["1"] + rest) == FightTurn(st)
    ensures !st.defeated && FightTurn(st).Playing? ==>
              Session(st, ["1"] + rest) == Session(FightTurn(st).state, rest)
  {
    SessionStep(st, "5", rest);
    SessionStep(st, "1", rest);
  }

  /** A whole session: the main loop fed with the typed lines. */
  function Session(st: GameState, lines: seq<string>): (r: Outcome)
    requires Terminating(st)
    ensures Valid(st) ==> Valid(r.state)
    ensures r.Quit? ==> "5" in lines
    // without ever typing "4" the monster is never declared defeated
    ensures !st.defeated && "4" !in lines ==> !r.state.defeated
  {
    Play(st, Commands(lines))
  }
}
