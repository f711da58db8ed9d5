/**
 * The second copy of the owner utilities. Reloading and pip updating
 * behave as in DevUtils; `delaycommand` differs in that it does not strip
 * an invocation prefix from the command, so `!ping` is looked up as the
 * word "!ping".
 */
module TrUtils {
  import opened Common
  import opened DevUtils

  /** `freload`: the `rlthen` flow, with the wrapper testing its first argument. */
  method Freload(cmd: string, args: string, prefix: string, known: bool, reloadMessages: seq<string>) returns (r: Rerun)
    ensures !known ==> r == Rerun(["Invalid Command: " + (prefix + cmd + " " + args)], None)
    ensures known ==> r == Rerun(Passing(reloadMessages), Some(prefix + cmd + " " + args))
    ensures known ==> forall t :: t in r.sent ==> t in reloadMessages && !Contains(t, "Reloaded ")
  {
    r := Rlthen(cmd, args, prefix, known, reloadMessages);
    forall t | t in r.sent && known ensures t in reloadMessages && !Contains(t, "Reloaded ") {
      PassingMembers(reloadMessages, t);
    }
  }

  /**
   * `delaycommand` (with the intended time check): the command text is
   * resolved as given, and the re-dispatched message is the prefix
   * followed by it.
   */
  method DelayCommand(time: string, command: string, prefix: string,
                      lookup: seq<string> -> bool, canRun: seq<string> -> bool) returns (o: DelayOutcome)
    ensures !ParseTime(time).Seconds? ==> o == BadTime
    ensures ParseTime(time).Seconds? && ParseTime(time).n > MAX_DELAY ==> o == TooLong
    ensures ParseTime(time).Seconds? && ParseTime(time).n <= MAX_DELAY ==> (
      var cname := Resolved(SplitWords(command), lookup);
      o == if |cname| == 0 || !lookup(cname) then InvalidCommand
           else Scheduled(ParseTime(time).n, !canRun(cname), prefix + command))
  {
    var t := ParseTime(time);
    if !t.Seconds? {
      return BadTime;
    }
    if t.n > MAX_DELAY {
      return TooLong;
    }
    var cname := ResolveCommand(SplitWords(command), lookup);
    if |cname| == 0 || !lookup(cname) {
      return InvalidCommand;
    }
    o := Scheduled(t.n, !canRun(cname), prefix + command);
  }

  /** The two `delaycommand`s agree on a command that does not start with the prefix. */
  method SamePlainCommand(time: string, command: string, prefix: string,
                          lookup: seq<string> -> bool, canRun: seq<string> -> bool) returns (dev: DelayOutcome, tr: DelayOutcome)
    requires !StartsWith(command, prefix)
    ensures dev == tr
  {
    dev := DevUtils.DelayCommand(time, command, prefix, lookup, canRun);
    tr := DelayCommand(time, command, prefix, lookup, canRun);
  }

  /** `delaycommand 5s !ping` with prefix `!`: scheduled by DevUtils, refused here. */
  method PrefixedCommandDiffers() returns (dev: DelayOutcome, tr: DelayOutcome)
    ensures dev == Scheduled(5, false, "!ping")
    ensures tr == InvalidCommand
  {
    var lookup := (ws: seq<string>) => ws == ["ping"];
    var canRun := (ws: seq<string>) => true;
    FiveSeconds();
    PingWords();
    dev := DevPing("5s", "!", "ping", lookup, canRun);
    tr := TrPing("5s", "!", "ping", lookup, canRun);
  }

  lemma PingWords()
    ensures "!" + "ping" == "!ping"
    ensures forall c :: c in "ping" ==> !IsSpace(c)
    ensures forall c :: c in "!ping" ==> !IsSpace(c)
  {
    assert "!" + "ping" == "!ping";
  }

  /** DevUtils drops the prefix and resolves the bare word. */
  method DevPing(time: string, prefix: string, word: string,
                 lookup: seq<string> -> bool, canRun: seq<string> -> bool) returns (o: DelayOutcome)
    requires ParseTime(time).Seconds? && ParseTime(time).n <= MAX_DELAY
    requires |word| > 0 && forall c :: c in word ==> !IsSpace(c)
    requires lookup([word]) && canRun([word])
    ensures o == Scheduled(ParseTime(time).n, false, prefix + word)
  {
    var command := prefix + word;
    assert StartsWith(command, prefix) && command[|prefix|..] == word;
    SplitOneWord(word);
    ResolveOne(word, lookup);
    o := DevUtils.DelayCommand(time, command, prefix, lookup, canRun);
  }

  /** Here the prefixed word is looked up as it stands. */
  method TrPing(time: string, prefix: string, word: string,
                lookup: seq<string> -> bool, canRun: seq<string> -> bool) returns (o: DelayOutcome)
    requires ParseTime(time).Seconds? && ParseTime(time).n <= MAX_DELAY
    requires |prefix + word| > 0 && forall c :: c in prefix + word ==> !IsSpace(c)
    requires !lookup([prefix + word])
    ensures o == InvalidCommand
  {
    var command := prefix + word;
    SplitOneWord(command);
    ResolveOne(command, lookup);
    o := DelayCommand(time, command, prefix, lookup, canRun);
  }

  lemma FiveSeconds()
    ensures ParseTime("5s") == Seconds(5)
  {
    var d := "5";
    assert AllDigits(d);
    assert d[..0] == [];
    assert DigitsValue(d) == 5;
    ParseSuffixed(d, "s", 1);
    assert d + "s" == "5s";
  }

  /** A single word resolves to itself exactly when it names a command. */
  lemma ResolveOne(w: string, lookup: seq<string> -> bool)
    ensures lookup([w]) ==> Resolved([w], lookup) == [w]
    ensures !lookup([w]) ==> Resolved([w], lookup) == []
  {
    assert [w][..1] == [w];
  }

  /** A word without spaces splits into itself. */
  lemma SplitOneWord(w: string)
    requires |w| > 0 && forall c :: c in w ==> !IsSpace(c)
    ensures SplitWords(w) == [w]
  {
    assert w[0] in w;
    assert LStrip(w) == w;
    WordLengthWhole(w);
    assert w[|w|..] == [] && w[..|w|] == w;
    assert LStrip([]) == [];
  }

  lemma {:induction false} WordLengthWhole(w: string)
    requires |w| > 0 && forall c :: c in w ==> !IsSpace(c)
    ensures WordLength(w) == |w|
    decreases |w|
  {
    assert w[0] in w;
    if |w| > 1 {
      assert w[1] in w;
      assert forall c :: c in w[1..] ==> c in w;
      WordLengthWhole(w[1..]);
    }
  }

  /** The package `pipupdate` updates when none is named. */
  const DEFAULT_PACKAGE := "Red-DiscordBot"

  /**
   * `pipupdate` with no arguments: the bot's own package, updating pip on
   * its warning; otherwise the closing replies for its own error output.
   */
  function PipUpdateDefault(stderrOf: string -> string): (r: seq<PipReply>)
    ensures stderrOf(DEFAULT_PACKAGE) == "" ==> r == [Tick]
    ensures !StartsWith(stderrOf(DEFAULT_PACKAGE), PIP_WARNING) ==> r == Closing(stderrOf(DEFAULT_PACKAGE))
    ensures !StartsWith(stderrOf(DEFAULT_PACKAGE), PIP_WARNING) && stderrOf(DEFAULT_PACKAGE) != "" ==>
      r == [DmError("Error updating:\n" + stderrOf(DEFAULT_PACKAGE)), Say("`Error (sent via DM)`")]
    ensures StartsWith(stderrOf(DEFAULT_PACKAGE), PIP_WARNING) ==>
      r == [Say(BeforeFirst(stderrOf(DEFAULT_PACKAGE), "You should consider") + "\n\nUpdating pip...")] +
           Closing(stderrOf("pip")) + [Tick]
  {
    PipUpdate(DEFAULT_PACKAGE, true, stderrOf)
  }
}
