/**
 * Owner utilities: running a command after a delay, re-running a command
 * after reloading its cog while hiding the reload notice, and updating a
 * package with pip. The bot's command table, permission checks, the cog
 * reload's own messages and pip's error output arrive as parameters.
 */
module DevUtils {
  import opened Common

  // ------------------------------------------------------------ delay time

  /** `re.match(r'\d+[ms]?', time)`: anchored only at the start, so a leading digit suffices. */
  predicate TimeMatches(time: string) {
    |time| > 0 && IsDigit(time[0])
  }

  /** The text before a final `s` or `m`. */
  function TimeBody(time: string): string {
    if EndsWith(time, "s") || EndsWith(time, "m") then time[..|time| - 1] else time
  }

  predicate AllDigits(s: string) {
    forall i :: 0 <= i < |s| ==> IsDigit(s[i])
  }

  /** `re.fullmatch(r'\d+[ms]?', time)`: digits, then at most one `s` or `m`. */
  predicate TimeFullMatches(time: string) {
    |TimeBody(time)| > 0 && AllDigits(TimeBody(time))
  }

  /** `s` without its underscores. */
  function DropUnderscores(s: string): (r: string)
    ensures '_' !in s ==> r == s
    ensures forall c :: c in r ==> c in s && c != '_'
  {
    if |s| == 0 then ""
    else if s[0] == '_' then DropUnderscores(s[1..])
    else [s[0]] + DropUnderscores(s[1..])
  }

  /**
   * Python's `int(s)` on unsigned text: surrounding whitespace is ignored,
   * and what is left must be digits, with single underscores allowed
   * between digits; None where it raises.
   */
  function PyInt(s: string): (r: Option<nat>)
    ensures |s| > 0 && AllDigits(s) ==> r.Some?
    ensures r.Some? ==> exists i :: 0 <= i < |s| && IsDigit(s[i])
  {
    StripFirstInside(s);
    assert |s| > 0 && AllDigits(s) ==> Strip(s) == s by {
      if |s| > 0 && AllDigits(s) {
        StripDigits(s);
      }
    }
    PyIntBare(Strip(s))
  }

  /** The first character left by `strip()` is one of the text's own. */
  lemma StripFirstInside(s: string)
    ensures |Strip(s)| > 0 ==> exists i :: 0 <= i < |s| && s[i] == Strip(s)[0]
  {
    var r := RStrip(s);
    var t := Strip(s);
    if |t| > 0 {
      var k := |r| - |t|;
      assert t[0] == r[k] && r[k] == s[k];
    }
  }

  /** `int()` after the whitespace is stripped. */
  function PyIntBare(s: string): (r: Option<nat>)
    ensures |s| > 0 && AllDigits(s) ==> r.Some?
    ensures r.Some? ==> |s| > 0 && IsDigit(s[0])
  {
    if |s| == 0 || !IsDigit(s[0]) || !IsDigit(s[|s| - 1]) then None
    else if exists i :: 0 <= i < |s| && !IsDigit(s[i]) && s[i] != '_' then None
    else if exists i :: 0 <= i < |s| - 1 && s[i] == '_' && s[i + 1] == '_' then None
    else
      var d := DropUnderscores(s);
      assert forall c :: c in d ==> IsDigit(c);
      Some(DigitsValue(d))
  }

  /** Digits have no whitespace to strip. */
  lemma {:induction false} StripDigits(s: string)
    requires |s| > 0 && AllDigits(s)
    ensures Strip(s) == s
  {
    assert IsDigit(s[|s| - 1]) && !IsSpace(s[|s| - 1]);
    assert RStrip(s) == s;
    assert IsDigit(s[0]) && !IsSpace(s[0]);
  }

  lemma {:induction false} PyIntDigits(s: string)
    requires |s| > 0 && AllDigits(s)
    ensures PyInt(s) == Some(DigitsValue(s))
  {
    StripDigits(s);
    assert '_' !in s;
  }

  /** Whitespace after the digits is ignored: `int("5 ")` is 5. */
  lemma {:induction false} PyIntTrailingSpace(d: string, w: string)
    requires |d| > 0 && AllDigits(d)
    requires forall i :: 0 <= i < |w| ==> IsSpace(w[i])
    ensures PyInt(d + w) == Some(DigitsValue(d))
  {
    RStripTrailingSpace(d, w);
    StripDigits(d);
    PyIntDigits(d);
  }

  lemma {:induction false} RStripTrailingSpace(d: string, w: string)
    requires |d| > 0 && !IsSpace(d[|d| - 1])
    requires forall i :: 0 <= i < |w| ==> IsSpace(w[i])
    ensures RStrip(d + w) == d
    decreases |w|
  {
    if |w| == 0 {
      assert d + w == d;
    } else {
      assert (d + w)[..|d + w| - 1] == d + w[..|w| - 1];
      RStripTrailingSpace(d, w[..|w| - 1]);
    }
  }

  datatype DelayTime = InvalidTime | RaisesValueError | Seconds(n: nat)

  function Scaled(v: Option<nat>, unit: nat): DelayTime {
    if v.None? then RaisesValueError else Seconds(v.value * unit)
  }

  /**
   * `delaycommand`'s time as written: a guard that only looks at the
   * first character, then `int()` of the text before an `s`/`m` suffix
   * (seconds, minutes) or of the whole text.
   */
  function ParseTimeAsWritten(time: string): (r: DelayTime)
    ensures r == InvalidTime <==> !TimeMatches(time)
    ensures TimeFullMatches(time) ==> r.Seconds?
  {
    if !TimeMatches(time) then InvalidTime
    else if EndsWith(time, "s") then Scaled(PyInt(time[..|time| - 1]), 1)
    else if EndsWith(time, "m") then Scaled(PyInt(time[..|time| - 1]), 60)
    else Scaled(PyInt(time), 1)
  }

  /** The time as intended: the whole text must match, so conversion never raises. */
  function ParseTime(time: string): (r: DelayTime)
    ensures r != RaisesValueError
    ensures r.Seconds? <==> TimeFullMatches(time)
    ensures r.Seconds? ==> r == ParseTimeAsWritten(time)
  {
    if !TimeFullMatches(time) then InvalidTime
    else
      PyIntDigits(TimeBody(time));
      ParseTimeAsWritten(time)
  }

  /** A run of digits followed by a unit letter. */
  lemma ParseSuffixed(d: string, u: string, unit: nat)
    requires |d| > 0 && AllDigits(d)
    requires (u == "s" && unit == 1) || (u == "m" && unit == 60)
    ensures ParseTime(d + u) == Seconds(DigitsValue(d) * unit)
  {
    var t := d + u;
    assert t[..|t| - 1] == d;
    assert EndsWith(t, u);
    assert TimeBody(t) == d;
    PyIntDigits(d);
    assert t[0] == d[0];
  }

  /** A run of digits on its own. */
  lemma {:induction false} ParseBare(d: string)
    requires |d| > 0 && AllDigits(d)
    ensures ParseTime(d) == Seconds(DigitsValue(d))
  {
    assert IsDigit(d[|d| - 1]) && IsDigit(d[0]);
    assert !EndsWith(d, "s") && !EndsWith(d, "m");
    assert TimeBody(d) == d && TimeFullMatches(d);
    PyIntDigits(d);
    assert ParseTimeAsWritten(d) == Scaled(PyInt(d), 1);
  }

  /** The units: `Ns` is N seconds, `Nm` is 60·N seconds, a bare `N` is N seconds. */
  lemma ParseTimeUnits(n: nat)
    ensures ParseTime(DigitString(n) + "s") == Seconds(n)
    ensures ParseTime(DigitString(n) + "m") == Seconds(60 * n)
    ensures ParseTime(DigitString(n)) == Seconds(n)
  {
    var d := DigitString(n);
    assert AllDigits(d) by {
      forall i | 0 <= i < |d| ensures IsDigit(d[i]) {
        assert d[i] in d;
      }
    }
    DigitStringRoundTrip(n);
    ParseSuffixed(d, "s", 1);
    ParseSuffixed(d, "m", 60);
    ParseBare(d);
  }

  /** "5h" passes the guard and makes `int()` raise as written; as intended it is an invalid time. */
  lemma HoursSuffixRaises()
    ensures ParseTimeAsWritten("5h") == RaisesValueError
    ensures ParseTime("5h") == InvalidTime
  {
    assert "5h" == "5" + "h";
    assert !IsSpace('h') && !IsDigit('h');
    UnknownUnitRaises("5", 'h');
  }

  /** Digits then a letter other than `s` or `m`: the guard passes and `int()` raises. */
  lemma {:induction false} UnknownUnitRaises(d: string, c: char)
    requires |d| > 0 && AllDigits(d)
    requires c != 's' && c != 'm' && !IsDigit(c) && !IsSpace(c)
    ensures ParseTimeAsWritten(d + [c]) == RaisesValueError
    ensures ParseTime(d + [c]) == InvalidTime
  {
    var t := d + [c];
    assert t[0] == d[0] && t[|t| - 1] == c;
    assert !EndsWith(t, "s") && !EndsWith(t, "m");
    assert TimeBody(t) == t && !IsDigit(t[|t| - 1]);
    assert RStrip(t) == t;
    assert IsDigit(t[0]) && !IsSpace(t[0]);
    assert Strip(t) == t;
  }

  /**
   * "5 s" passes the guard, and `int("5 ")` ignores the space, so as
   * written it is five seconds; as intended it is an invalid time.
   */
  lemma SpacedSecondsAccepted()
    ensures ParseTimeAsWritten("5 s") == Seconds(5)
    ensures ParseTime("5 s") == InvalidTime
  {
    SpacedSecondsAsWritten();
    SpacedSecondsRefused();
  }

  lemma SpacedSecondsAsWritten()
    ensures ParseTimeAsWritten("5 s") == Seconds(5)
  {
    assert "5 s" == "5" + " " + "s";
    SpacedSuffixAsWritten("5", " ");
    assert DigitsValue("5") == 5 by {
      assert "5"[..0] == "";
    }
  }

  /** Digits, whitespace, then `s`: the guard passes and `int()` ignores the whitespace. */
  lemma SpacedSuffixAsWritten(d: string, w: string)
    requires |d| > 0 && AllDigits(d)
    requires forall i :: 0 <= i < |w| ==> IsSpace(w[i])
    ensures ParseTimeAsWritten(d + w + "s") == Seconds(DigitsValue(d))
  {
    var t := d + w + "s";
    assert t[0] == d[0];
    assert EndsWith(t, "s");
    assert t[..|t| - 1] == d + w;
    PyIntTrailingSpace(d, w);
  }

  lemma SpacedSecondsRefused()
    ensures ParseTime("5 s") == InvalidTime
  {
    var t := "5 s";
    assert EndsWith(t, "s");
    assert TimeBody(t) == "5 " && !IsDigit(TimeBody(t)[1]);
    assert !TimeFullMatches(t);
  }

  /** The longest delay accepted: 15 minutes. */
  const MAX_DELAY := 60 * 15

  // ------------------------------------------------------ command lookup

  /**
   * The `cname` loop: words are appended while the command named by
   * the words so far plus the next word exists; the first failure stops it.
   */
  function ResolveFrom(acc: seq<string>, rest: seq<string>, lookup: seq<string> -> bool): (r: seq<string>)
    ensures acc <= r && r <= acc + rest
    ensures forall k :: |acc| < k <= |r| ==> lookup(r[..k])
    ensures |r| < |acc + rest| ==> !lookup((acc + rest)[..|r| + 1])
    decreases |rest|
  {
    if |rest| == 0 then acc
    else if !lookup(acc + [rest[0]]) then
      assert (acc + rest)[..|acc| + 1] == acc + [rest[0]];
      acc
    else
      var r := ResolveFrom(acc + [rest[0]], rest[1..], lookup);
      assert acc + [rest[0]] + rest[1..] == acc + rest;
      assert r[..|acc| + 1] == acc + [rest[0]];
      r
  }

  /** The longest run of leading words each of whose prefixes names a command. */
  function Resolved(words: seq<string>, lookup: seq<string> -> bool): (r: seq<string>)
    ensures r <= words
    ensures forall k :: 0 < k <= |r| ==> lookup(words[..k])
    ensures |r| < |words| ==> !lookup(words[..|r| + 1])
  {
    var r := ResolveFrom([], words, lookup);
    assert [] + words == words;
    assert forall k :: 0 < k <= |r| ==> r[..k] == words[..k];
    r
  }

  /** The `cname` loop itself, over the words of the command text. */
  method ResolveCommand(words: seq<string>, lookup: seq<string> -> bool) returns (cname: seq<string>)
    ensures cname == Resolved(words, lookup)
  {
    cname := [];
    var i := 0;
    while i < |words|
      invariant 0 <= i <= |words| && cname == words[..i]
      invariant ResolveFrom(cname, words[i..], lookup) == ResolveFrom([], words, lookup)
      decreases |words| - i
    {
      if !lookup(cname + [words[i]]) {
        break;
      }
      assert words[i..][1..] == words[i + 1..];
      cname := cname + [words[i]];
      i := i + 1;
    }
    assert [] + words == words;
  }

  datatype DelayOutcome =
    | BadTime
    | TooLong
    | InvalidCommand
    | Scheduled(delay: nat, noPermissionNotice: bool, content: string)

  /**
   * `delaycommand` (with the intended time check): a leading invocation
   * prefix is removed from the command; a command that resolves is
   * scheduled even when the author may not run it, in which case a notice
   * is sent first. No words resolved means the empty name, which names no
   * command. The re-dispatched message is the prefix followed by the command.
   */
  method DelayCommand(time: string, command: string, prefix: string,
                      lookup: seq<string> -> bool, canRun: seq<string> -> bool) returns (o: DelayOutcome)
    ensures !ParseTime(time).Seconds? ==> o == BadTime
    ensures ParseTime(time).Seconds? && ParseTime(time).n > MAX_DELAY ==> o == TooLong
    ensures ParseTime(time).Seconds? && ParseTime(time).n <= MAX_DELAY ==> (
      var cmd := if StartsWith(command, prefix) then command[|prefix|..] else command;
      var cname := Resolved(SplitWords(cmd), lookup);
      o == if |cname| == 0 || !lookup(cname) then InvalidCommand
           else Scheduled(ParseTime(time).n, !canRun(cname), prefix + cmd))
  {
    var t := ParseTime(time);
    if !t.Seconds? {
      return BadTime;
    }
    if t.n > MAX_DELAY {
      return TooLong;
    }
    var cmd := command;
    if StartsWith(cmd, prefix) {
      cmd := cmd[|prefix|..];
    }
    var cname := ResolveCommand(SplitWords(cmd), lookup);
    if |cname| == 0 || !lookup(cname) {
      return InvalidCommand;
    }
    o := Scheduled(t.n, !canRun(cname), prefix + cmd);
  }

  // ---------------------------------------------------------------- rlthen

  /** Whether the replacement `send` lets a message through. */
  predicate Passes(text: string) {
    !Contains(text, "Reloaded ")
  }

  /** The messages the reload gets to send through the wrapper. */
  function Passing(texts: seq<string>): (r: seq<string>)
    ensures |r| <= |texts|
  {
    if |texts| == 0 then []
    else (if Passes(texts[0]) then [texts[0]] else []) + Passing(texts[1..])
  }

  /** Exactly the messages without "Reloaded " get through. */
  lemma {:induction false} PassingMembers(texts: seq<string>, t: string)
    ensures t in Passing(texts) <==> t in texts && Passes(t)
  {
    if |texts| > 0 {
      PassingMembers(texts[1..], t);
      assert texts == [texts[0]] + texts[1..];
    }
  }

  datatype Rerun = Rerun(sent: seq<string>, content: Option<string>)

  /**
   * `rlthen`: an unknown command is refused; otherwise the cog reload's
   * messages go through the wrapper, which suppresses exactly those
   * containing "Reloaded ", and then the full command is dispatched.
   */
  method Rlthen(cmd: string, args: string, prefix: string, known: bool, reloadMessages: seq<string>) returns (r: Rerun)
    ensures !known ==> r == Rerun(["Invalid Command: " + (prefix + cmd + " " + args)], None)
    ensures known ==> r == Rerun(Passing(reloadMessages), Some(prefix + cmd + " " + args))
  {
    var fullCmd := prefix + cmd + " " + args;
    if !known {
      return Rerun(["Invalid Command: " + fullCmd], None);
    }
    var sent := FakeSend(reloadMessages);
    r := Rerun(sent, Some(fullCmd));
  }

  /** The replacement `send`, applied to each message of the reload in turn. */
  method FakeSend(messages: seq<string>) returns (sent: seq<string>)
    ensures sent == Passing(messages)
  {
    sent := [];
    var i := 0;
    while i < |messages|
      invariant 0 <= i <= |messages|
      invariant sent + Passing(messages[i..]) == Passing(messages)
      decreases |messages| - i
    {
      assert messages[i..][1..] == messages[i + 1..];
      if Passes(messages[i]) {
        sent := sent + [messages[i]];
      }
      i := i + 1;
    }
    assert messages[i..] == [];
    assert sent + [] == sent;
  }

  // -------------------------------------------------------------- pipupdate

  const PIP_WARNING := "WARNING: You are using pip version"

  /** `s.split(sep)[0]`: the text before the first occurrence of `sep`. */
  function BeforeFirst(s: string, sep: string): (r: string)
    requires |sep| > 0
    ensures r <= s
    ensures !Contains(s, sep) ==> r == s
    ensures Contains(s, sep) ==> !Contains(r, sep) && StartsWith(s[|r|..], sep)
    decreases |s|
  {
    if StartsWith(s, sep) then ""
    else if |s| == 0 then ""
    else
      var rest := BeforeFirst(s[1..], sep);
      var r := [s[0]] + rest;
      assert r <= s;
      assert s[|r|..] == s[1..][|rest|..];
      r
  }

  datatype PipReply = Say(text: string) | DmError(text: string) | Tick

  /** The closing replies of one run for its error output: a tick, or the error by DM and a notice. */
  function Closing(stderr: string): seq<PipReply> {
    if StartsWith(stderr, PIP_WARNING) || stderr == "" then [Tick]
    else [DmError("Error updating:\n" + stderr), Say("`Error (sent via DM)`")]
  }

  /**
   * `pipupdate`: pip's version warning counts as no error, and when
   * allowed it first reports the warning and updates pip itself (once);
   * any other error output is sent to the author by DM.
   */
  function PipUpdate(pkg: string, updatePip: bool, stderrOf: string -> string): (r: seq<PipReply>)
    ensures StartsWith(stderrOf(pkg), PIP_WARNING) ==> |r| > 0 && r[|r| - 1] == Tick
    ensures StartsWith(stderrOf(pkg), PIP_WARNING) && !updatePip ==> r == [Tick]
    ensures StartsWith(stderrOf(pkg), PIP_WARNING) && updatePip ==>
      3 <= |r| <= 4 && r[0] == Say(BeforeFirst(stderrOf(pkg), "You should consider") + "\n\nUpdating pip...")
    ensures !updatePip ==> |r| <= 2
    ensures stderrOf(pkg) == "" ==> r == [Tick]
    ensures !StartsWith(stderrOf(pkg), PIP_WARNING) && stderrOf(pkg) != "" ==>
      r == [DmError("Error updating:\n" + stderrOf(pkg)), Say("`Error (sent via DM)`")]
    ensures !(StartsWith(stderrOf(pkg), PIP_WARNING) && updatePip) ==> r == Closing(stderrOf(pkg))
    ensures StartsWith(stderrOf(pkg), PIP_WARNING) && updatePip ==>
      r == [Say(BeforeFirst(stderrOf(pkg), "You should consider") + "\n\nUpdating pip...")] +
           Closing(stderrOf("pip")) + [Tick]
    decreases updatePip
  {
    var stderr := stderrOf(pkg);
    if StartsWith(stderr, PIP_WARNING) then
      (if updatePip then
         [Say(BeforeFirst(stderr, "You should consider") + "\n\nUpdating pip...")] + PipUpdate("pip", false, stderrOf)
       else []) + [Tick]
    else if stderr != "" then
      [DmError("Error updating:\n" + stderr), Say("`Error (sent via DM)`")]
    else [Tick]
  }
}
