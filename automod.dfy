/**
 * The automod cog's matching rules (the pad check digit, room-code detection,
 * custom `:name:` patterns and the include/exclude combinator), the
 * bookkeeping of how many channel lists use each pattern, the watchdog
 * cooldown rules and the bounded per-channel-user message log.
 *
 * The regular-expression engine is an oracle `regex(pattern, text)`; such
 * patterns are case-insensitive, multiline and dot-all, and are anchored at
 * the start only, as `re.match` is. Times are whole seconds.
 */
module AutoMod {
  import opened Common

  // ------------------------------------------------------------ check digit

  /** The first `k` characters are ASCII digits. */
  predicate DigitsUpTo(n: string, k: nat)
    requires k <= |n|
  {
    forall i :: 0 <= i < k ==> IsDigit(n[i])
  }

  function DigitSum(n: string, k: nat): nat
    requires k <= |n| && DigitsUpTo(n, k)
  {
    if k == 0 then 0 else DigitSum(n, k - 1) + DigitValue(n[k - 1])
  }

  /**
   * What `pad_checkdigit` decides: None when it raises (fewer than eight
   * characters, or one of the first eight is not a digit), otherwise whether
   * the eighth digit is 7 plus the sum of the first seven, modulo 10.
   */
  function Checkdigit(n: string): (r: Option<bool>)
    ensures r.Some? <==> |n| >= 8 && forall i :: 0 <= i < 8 ==> IsDigit(n[i])
  {
    if |n| < 8 || !DigitsUpTo(n, 8) then None
    else Some(DigitValue(n[7]) == (7 + DigitSum(n, 7)) % 10)
  }

  /** `pad_checkdigit`: read the check digit, then add up the first seven digits. */
  method PadCheckdigit(n: string) returns (r: Option<bool>)
    ensures r == Checkdigit(n)
  {
    if |n| < 8 || !IsDigit(n[7]) {
      return None;
    }
    var checkdigit := DigitValue(n[7]);
    var checksum := 7;
    var idx := 0;
    while idx < 7
      invariant 0 <= idx <= 7
      invariant DigitsUpTo(n, idx)
      invariant checksum == 7 + DigitSum(n, idx)
    {
      if !IsDigit(n[idx]) {
        return None;
      }
      checksum := checksum + DigitValue(n[idx]);
      idx := idx + 1;
    }
    return Some(checkdigit == checksum % 10);
  }

  lemma DigitSumChange(n: string, m: string, i: nat, k: nat)
    requires |n| == |m| && i < k <= |n| && DigitsUpTo(n, k) && DigitsUpTo(m, k)
    requires forall j :: 0 <= j < |n| && j != i ==> n[j] == m[j]
    ensures DigitSum(m, k) == DigitSum(n, k) - DigitValue(n[i]) + DigitValue(m[i])
  {
    if k - 1 != i {
      DigitSumChange(n, m, i, k - 1);
    } else {
      DigitSumSame(n, m, i);
    }
  }

  lemma DigitSumSame(n: string, m: string, k: nat)
    requires |n| == |m| && k <= |n| && DigitsUpTo(n, k) && DigitsUpTo(m, k)
    requires forall j :: 0 <= j < k ==> n[j] == m[j]
    ensures DigitSum(m, k) == DigitSum(n, k)
  {
    if k > 0 {
      DigitSumSame(n, m, k - 1);
    }
  }

  /** The check digit catches every single-digit mistake among the first eight digits. */
  lemma SingleDigitErrorDetected(n: string, m: string, i: nat)
    requires Checkdigit(n) == Some(true)
    requires |m| == |n| && i < 8 && IsDigit(m[i]) && m[i] != n[i]
    requires forall j :: 0 <= j < |n| && j != i ==> n[j] == m[j]
    ensures Checkdigit(m) == Some(false)
  {
    assert DigitsUpTo(m, 8);
    if i < 7 {
      DigitSumChange(n, m, i, 7);
    } else {
      DigitSumSame(n, m, 7);
    }
  }

  /** `starts_with_code`: drop spaces and tildes, refuse fewer than eight characters, check the first eight. */
  function StartsWithCode(txt: string): (r: Option<bool>)
    ensures var t := RemoveAll(RemoveAll(txt, ' '), '~');
      (|t| < 8 ==> r == Some(false)) && (|t| >= 8 ==> r == Checkdigit(t[..8]))
  {
    var t := RemoveAll(RemoveAll(txt, ' '), '~');
    if |t| < 8 then Some(false) else Checkdigit(t[..8])
  }

  // ---------------------------------------------------------- patterns

  /** `name` of a `:name:` pattern, as `pattern[1:-1]`. */
  function CustomName(pattern: string): string
    requires |pattern| > 0
  {
    if |pattern| >= 2 then pattern[1..|pattern| - 1] else ""
  }

  predicate IsCustomName(name: string) { name == "starts_with_code" || name == "pad_checkdigit" }

  /** A custom check: its answer, or false when it raises. */
  function RunCustom(name: string, txt: string): bool
    requires IsCustomName(name)
  {
    var r := if name == "starts_with_code" then StartsWithCode(txt) else Checkdigit(txt);
    r == Some(true)
  }

  /**
   * `matchesPattern`: an empty pattern never matches; `:name:` runs the named
   * custom check, with any exception read as no match; any other pattern,
   * including `:unknown:`, goes to the regex engine.
   */
  function MatchesPattern(pattern: string, txt: string, regex: (string, string) -> bool): (r: bool)
    ensures |pattern| == 0 ==> !r
    ensures |pattern| > 0 && pattern[0] == ':' && pattern[|pattern| - 1] == ':' && IsCustomName(CustomName(pattern)) ==>
      r == RunCustom(CustomName(pattern), txt)
    ensures |pattern| > 0 && !(pattern[0] == ':' && pattern[|pattern| - 1] == ':' && IsCustomName(CustomName(pattern))) ==>
      r == regex(pattern, txt)
  {
    if |pattern| == 0 then false
    else if pattern[0] == ':' && pattern[|pattern| - 1] == ':' && IsCustomName(CustomName(pattern)) then
      RunCustom(CustomName(pattern), txt)
    else regex(pattern, txt)
  }

  /** `matchesIncludeExclude`. */
  function MatchesIncludeExclude(includePattern: string, excludePattern: string, txt: string, regex: (string, string) -> bool): (r: bool)
    ensures r <==> MatchesPattern(includePattern, txt, regex) && !MatchesPattern(excludePattern, txt, regex)
  {
    if MatchesPattern(includePattern, txt, regex) then !MatchesPattern(excludePattern, txt, regex) else false
  }

  /** An empty include never matches and an empty exclude excludes nothing. */
  lemma EmptyPatterns(includePattern: string, txt: string, regex: (string, string) -> bool)
    ensures !MatchesIncludeExclude("", includePattern, txt, regex)
    ensures MatchesIncludeExclude(includePattern, "", txt, regex) == MatchesPattern(includePattern, txt, regex)
  {
  }

  /** A text whose check digit raises is matched by neither custom pattern. */
  lemma CustomExceptionIsNoMatch(txt: string, regex: (string, string) -> bool)
    requires |txt| < 8
    ensures !MatchesPattern(":pad_checkdigit:", txt, regex)
    ensures !MatchesPattern(":starts_with_code:", txt, regex)
  {
    assert CustomName(":pad_checkdigit:") == "pad_checkdigit";
    assert CustomName(":starts_with_code:") == "starts_with_code";
    assert |RemoveAll(txt, ' ')| <= |txt|;
  }

  // -------------------------------------------------------- uses accounting

  datatype Pattern = Pattern(includePattern: string, excludePattern: string, uses: int)

  datatype ListKind = Whitelist | Blacklist

  /** A channel's whitelist or blacklist; a channel never configured has an empty one. */
  function ListOf(lists: map<(ListKind, int), seq<string>>, key: (ListKind, int)): seq<string> {
    if key in lists then lists[key] else []
  }

  /** The channel lists, white and black, that hold `name`. */
  function Holders(lists: map<(ListKind, int), seq<string>>, name: string): set<(ListKind, int)> {
    set k | k in lists && name in lists[k]
  }

  datatype AddPatternOutcome = TooManyInputs | CompileError | PatternAdded
  datatype ListOutcome = Undefined | InUse | Done | KeyErrorAfterAppend

  lemma HoldersAdd(lists: map<(ListKind, int), seq<string>>, key: (ListKind, int), name: string, m: string)
    requires name !in ListOf(lists, key)
    ensures var l2 := lists[key := ListOf(lists, key) + [name]];
      Holders(l2, name) == Holders(lists, name) + {key} && key !in Holders(lists, name) &&
      (m != name ==> Holders(l2, m) == Holders(lists, m))
  {
  }

  lemma HoldersRemove(lists: map<(ListKind, int), seq<string>>, key: (ListKind, int), name: string, m: string)
    requires key in lists && name in lists[key] && NoDup(lists[key])
    ensures var l2 := lists[key := RemoveFirst(lists[key], name)];
      Holders(l2, name) == Holders(lists, name) - {key} && key in Holders(lists, name) &&
      (m != name ==> Holders(l2, m) == Holders(lists, m))
  {
    var l2 := lists[key := RemoveFirst(lists[key], name)];
    RemoveFirstNoDup(lists[key], name);
    RemoveFirstMembers(lists[key], name, m);
    assert Holders(l2, name) == Holders(lists, name) - {key};
    if m != name {
      assert Holders(l2, m) == Holders(lists, m);
    }
  }

  /** One guild's patterns and all of its channels' whitelists and blacklists. */
  class AutoModGuild {
    var patterns: map<string, Pattern>
    var lists: map<(ListKind, int), seq<string>>

    /**
     * The accounting the commands keep: no list repeats a name, every listed
     * name is a defined pattern, and a pattern's `uses` is the number of
     * lists that hold it.
     */
    ghost predicate Valid()
      reads this
    {
      (forall k :: k in lists ==> NoDup(lists[k])) &&
      (forall k, n :: k in lists && n in lists[k] ==> n in patterns) &&
      (forall n :: n in patterns ==> patterns[n].uses == |Holders(lists, n)|)
    }

    constructor ()
      ensures Valid() && patterns == map[] && lists == map[]
    {
      patterns := map[];
      lists := map[];
    }

    /**
     * `addpattern`: refuses a fifth argument or a pattern that does not
     * compile; otherwise (re)defines the pattern with `uses` 0, which keeps
     * the accounting only for a new or unused name.
     */
    method AddPattern(name: string, includePattern: string, excludePattern: string, extra: bool, compiles: bool)
      returns (r: AddPatternOutcome)
      modifies this
      ensures lists == old(lists)
      ensures extra ==> r == TooManyInputs && patterns == old(patterns)
      ensures !extra && !compiles ==> r == CompileError && patterns == old(patterns)
      ensures !extra && compiles ==> r == PatternAdded && patterns == old(patterns)[name := Pattern(includePattern, excludePattern, 0)]
      ensures old(Valid()) && (name !in old(patterns) || old(patterns)[name].uses == 0) ==> Valid()
    {
      if extra {
        return TooManyInputs;
      }
      if !compiles {
        return CompileError;
      }
      if name !in patterns && Valid() {
        assert Holders(lists, name) == {};
      }
      patterns := patterns[name := Pattern(includePattern, excludePattern, 0)];
      return PatternAdded;
    }

    /** `rmpattern`: refuses an undefined or used pattern, otherwise deletes only that key. */
    method RmPattern(name: string) returns (r: ListOutcome)
      requires Valid()
      modifies this
      ensures Valid() && lists == old(lists)
      ensures name !in old(patterns) ==> r == Undefined && patterns == old(patterns)
      ensures name in old(patterns) && old(patterns)[name].uses != 0 ==> r == InUse && patterns == old(patterns)
      ensures name in old(patterns) && old(patterns)[name].uses == 0 ==> r == Done && patterns == old(patterns) - {name}
      ensures r == Done ==> forall k :: k in lists ==> name !in lists[k]
    {
      if name !in patterns {
        return Undefined;
      }
      if patterns[name].uses != 0 {
        return InUse;
      }
      assert Holders(lists, name) == {};
      forall k | k in lists
        ensures name !in lists[k]
      {
        assert k !in Holders(lists, name);
      }
      patterns := patterns - {name};
      return Done;
    }

    /**
     * `addwhitelist`/`addblacklist` AS WRITTEN: the guard is inverted, so a
     * defined pattern is refused as "undefined", while an undefined name is
     * appended to the channel list before `patterns[name]` raises KeyError.
     */
    method AddToListAsWritten(kind: ListKind, channel: int, name: string) returns (r: ListOutcome)
      requires Valid()
      modifies this
      ensures patterns == old(patterns)
      ensures name in old(patterns) ==> r == Undefined && lists == old(lists)
      ensures name !in old(patterns) && name in ListOf(old(lists), (kind, channel)) ==> r == Done && lists == old(lists)
      ensures name !in old(patterns) && name !in ListOf(old(lists), (kind, channel)) ==>
        r == KeyErrorAfterAppend &&
        lists == old(lists)[(kind, channel) := ListOf(old(lists), (kind, channel)) + [name]] &&
        !Valid()
    {
      var key := (kind, channel);
      if name in patterns {
        return Undefined;
      }
      var list := ListOf(lists, key);
      if name !in list {
        lists := lists[key := list + [name]];
        assert name in lists[key];
        return KeyErrorAfterAppend;
      }
      return Done;
    }

    /** The guard evidently intended: refuse an undefined name, else list it once and count the use. */
    method AddToList(kind: ListKind, channel: int, name: string) returns (r: ListOutcome)
      requires Valid()
      modifies this
      ensures Valid()
      ensures name !in old(patterns) ==> r == Undefined && lists == old(lists) && patterns == old(patterns)
      ensures name in old(patterns) && name in ListOf(old(lists), (kind, channel)) ==>
        r == Done && lists == old(lists) && patterns == old(patterns)
      ensures name in old(patterns) && name !in ListOf(old(lists), (kind, channel)) ==>
        r == Done &&
        lists == old(lists)[(kind, channel) := ListOf(old(lists), (kind, channel)) + [name]] &&
        patterns == old(patterns)[name := old(patterns)[name].(uses := old(patterns)[name].uses + 1)]
    {
      var key := (kind, channel);
      if name !in patterns {
        return Undefined;
      }
      var list := ListOf(lists, key);
      if name in list {
        return Done;
      }
      AppendNoDup(list, name);
      forall m ensures Holders(lists[key := list + [name]], m) ==
        if m == name then Holders(lists, name) + {key} else Holders(lists, m)
      {
        HoldersAdd(lists, key, name, m);
      }
      HoldersAdd(lists, key, name, name);
      lists := lists[key := list + [name]];
      patterns := patterns[name := patterns[name].(uses := patterns[name].uses + 1)];
      return Done;
    }

    /** `rmwhitelist`/`rmblacklist`: refuse a name not in the list, else remove it and count one use less. */
    method RmFromList(kind: ListKind, channel: int, name: string) returns (r: ListOutcome)
      requires Valid()
      modifies this
      ensures Valid()
      ensures name !in ListOf(old(lists), (kind, channel)) ==>
        r == Undefined && lists == old(lists) && patterns == old(patterns)
      ensures name in ListOf(old(lists), (kind, channel)) ==>
        r == Done &&
        lists == old(lists)[(kind, channel) := RemoveFirst(old(lists)[(kind, channel)], name)] &&
        name !in lists[(kind, channel)] &&
        patterns == old(patterns)[name := old(patterns)[name].(uses := old(patterns)[name].uses - 1)]
    {
      var key := (kind, channel);
      var list := ListOf(lists, key);
      if name !in list {
        return Undefined;
      }
      RemoveFirstNoDup(list, name);
      forall m ensures Holders(lists[key := RemoveFirst(list, name)], m) ==
        if m == name then Holders(lists, name) - {key} else Holders(lists, m)
      {
        HoldersRemove(lists, key, name, m);
      }
      HoldersRemove(lists, key, name, name);
      forall x | x in RemoveFirst(list, name) ensures x in list {
        RemoveFirstMembers(list, name, x);
      }
      lists := lists[key := RemoveFirst(list, name)];
      patterns := patterns[name := patterns[name].(uses := patterns[name].uses - 1)];
      return Done;
    }
  }

  // ------------------------------------------------------------ watchdog

  datatype WatchedUser = WatchedUser(requester: int, cooldown: int, reason: string)
  datatype Phrase = Phrase(requester: int, cooldown: int, phrase: string)

  /** Seconds since the last sighting, or 9999 for none. */
  function Elapsed(last: Option<int>, now: int): int {
    if last.Some? then now - last.value else 9999
  }

  /** The report rule both watchdogs share: strictly more time than the cooldown has passed. */
  function Reports(cooldown: int, last: Option<int>, now: int): (b: bool)
    ensures last.None? ==> (b <==> cooldown < 9999)
    ensures last.Some? ==> (b <==> now > last.value + cooldown)
  {
    Elapsed(last, now) > cooldown
  }

  /** The cooldown `watchdog phrase` stores: zero clears elsewhere, anything else is at least 300. */
  function PhraseCooldown(cooldown: int): (c: int)
    requires cooldown != 0
    ensures c >= 300
    ensures cooldown >= 300 ==> c == cooldown
  {
    if cooldown < 300 then 300 else cooldown
  }

  datatype UserCommandOutcome = NoWatchdog | WatchdogIs(cooldown: int) | Cleared | ReasonRequired | UserSet
  datatype PhraseCommandOutcome = PhraseCleared | PhraseCompileError | PhraseSet(cooldown: int) | PhraseTypeError

  /** How the phrase listener as written ends: `None.items()` raises AttributeError. */
  datatype PhraseScan = ScanAttributeError | Scanned(reported: Option<string>)

  /**
   * A guild's watchdog settings and the last-seen times kept in memory.
   * `phrases` is the registered setting `watchdog_phrases`; the phrase
   * command and listener as written read an unregistered key instead (see
   * SetPhraseAsWritten), and SetPhrase and WatchPhrases are the intended
   * versions over the registered one.
   */
  class Watchdog {
    var users: map<int, WatchedUser>
    var phrases: map<string, Phrase>
    var userLast: map<int, int>
    var phraseLast: map<string, Option<int>>

    constructor ()
      ensures users == map[] && phrases == map[] && userLast == map[] && phraseLast == map[]
    {
      users, phrases, userLast, phraseLast := map[], map[], map[], map[];
    }

    /** `watchdog user`: no cooldown queries, 0 clears, otherwise a reason is needed to set. */
    method SetUser(uid: int, cooldown: Option<int>, reason: string, requester: int) returns (r: UserCommandOutcome)
      modifies this
      ensures phrases == old(phrases) && userLast == old(userLast) && phraseLast == old(phraseLast)
      ensures cooldown.None? ==> (users == old(users) &&
        r == (if uid in users && users[uid].cooldown != 0 then WatchdogIs(users[uid].cooldown) else NoWatchdog))
      ensures cooldown == Some(0) ==> r == Cleared && users == old(users) - {uid}
      ensures cooldown.Some? && cooldown.value != 0 && reason == "" ==> r == ReasonRequired && users == old(users)
      ensures cooldown.Some? && cooldown.value != 0 && reason != "" ==>
        r == UserSet && users == old(users)[uid := WatchedUser(requester, cooldown.value, reason)]
    {
      if cooldown.None? {
        if uid in users && users[uid].cooldown != 0 {
          return WatchdogIs(users[uid].cooldown);
        }
        return NoWatchdog;
      }
      if cooldown.value == 0 {
        users := users - {uid};
        return Cleared;
      }
      if reason == "" {
        return ReasonRequired;
      }
      users := users[uid := WatchedUser(requester, cooldown.value, reason)];
      return UserSet;
    }

    /**
     * `watchdog phrase` AS WRITTEN: it opens the setting `phrases`, which the
     * cog never registers (it registers `watchdog_phrases`), so its value is
     * None and using it as a context manager raises TypeError before any
     * branch runs. Nothing is stored.
     */
    method SetPhraseAsWritten(name: string, cooldown: int, phrase: Option<string>, compiles: bool, requester: int)
      returns (r: PhraseCommandOutcome)
      ensures r == PhraseTypeError
    {
      return PhraseTypeError;
    }

    /**
     * `mod_message_watchdog_phrase` AS WRITTEN: the unregistered `phrases`
     * reads as None and `.items()` raises AttributeError on every message
     * the watchdog listener passes on.
     */
    method WatchPhrasesAsWritten(content: string, now: int, regex: (string, string) -> bool) returns (r: PhraseScan)
      ensures r == ScanAttributeError
    {
      return ScanAttributeError;
    }

    /**
     * `watchdog phrase` as intended, over `watchdog_phrases`: a cooldown of 0 deletes the entry keyed by the phrase
     * text (entries are keyed by name); otherwise a phrase that compiles is
     * stored under its name with the cooldown raised to at least 300, and its
     * last sighting is forgotten.
     */
    method SetPhrase(name: string, cooldown: int, phrase: Option<string>, compiles: bool, requester: int)
      returns (r: PhraseCommandOutcome)
      modifies this
      ensures users == old(users) && userLast == old(userLast)
      ensures cooldown == 0 ==> (r == PhraseCleared && phraseLast == old(phraseLast) &&
        phrases == (if phrase.Some? then old(phrases) - {phrase.value} else old(phrases)))
      ensures cooldown != 0 && (phrase.None? || !compiles) ==>
        r == PhraseCompileError && phrases == old(phrases) && phraseLast == old(phraseLast)
      ensures cooldown != 0 && phrase.Some? && compiles ==>
        r == PhraseSet(PhraseCooldown(cooldown)) &&
        phrases == old(phrases)[name := Phrase(requester, PhraseCooldown(cooldown), phrase.value)] &&
        phraseLast == old(phraseLast)[name := None]
    {
      if cooldown == 0 {
        if phrase.Some? {
          phrases := phrases - {phrase.value};
        }
        return PhraseCleared;
      }
      if phrase.None? || !compiles {
        return PhraseCompileError;
      }
      var c := if cooldown < 300 then 300 else cooldown;
      phrases := phrases[name := Phrase(requester, c, phrase.value)];
      phraseLast := phraseLast[name := None];
      return PhraseSet(c);
    }

    /**
     * `mod_message_watchdog_user`: nothing for an unwatched user or a
     * non-positive cooldown; otherwise the sighting is recorded either way and
     * reported iff more than the cooldown has passed since the last one.
     */
    method WatchUser(uid: int, now: int) returns (report: bool)
      modifies this
      ensures users == old(users) && phrases == old(phrases) && phraseLast == old(phraseLast)
      ensures uid !in users || users[uid].cooldown <= 0 ==> !report && userLast == old(userLast)
      ensures uid in users && users[uid].cooldown > 0 ==>
        userLast == old(userLast)[uid := now] &&
        report == Reports(users[uid].cooldown, if uid in old(userLast) then Some(old(userLast)[uid]) else None, now)
    {
      if uid !in users || users[uid].cooldown <= 0 {
        return false;
      }
      var last := if uid in userLast then Some(userLast[uid]) else None;
      userLast := userLast[uid := now];
      report := Elapsed(last, now) > users[uid].cooldown;
    }

    function LastOf(name: string): Option<int>
      reads this
    {
      if name in phraseLast then phraseLast[name] else None
    }

    /**
     * `mod_message_watchdog_phrase` as intended, over `watchdog_phrases` in
     * dictionary order `order` (every stored name once): the first phrase off
     * cooldown whose regex matches is reported and its sighting recorded;
     * phrases on cooldown are not even tried.
     */
    method WatchPhrases(order: seq<string>, content: string, now: int, regex: (string, string) -> bool)
      returns (reported: Option<string>)
      requires NoDup(order)
      requires forall i :: 0 <= i < |order| ==> order[i] in phrases
      requires forall k :: k in phrases ==> k in order
      modifies this
      ensures users == old(users) && phrases == old(phrases) && userLast == old(userLast)
      ensures reported.None? ==> (phraseLast == old(phraseLast) &&
        forall i :: 0 <= i < |order| ==> !PhraseFires(phrases[order[i]], old(LastOf(order[i])), content, now, regex))
      ensures reported.Some? ==> phraseLast == old(phraseLast)[reported.value := Some(now)]
      ensures reported.Some? ==> exists i :: (
        0 <= i < |order| && order[i] == reported.value &&
        PhraseFires(phrases[order[i]], old(LastOf(order[i])), content, now, regex) &&
        forall j :: 0 <= j < i ==> !PhraseFires(phrases[order[j]], old(LastOf(order[j])), content, now, regex))
    {
      var i := 0;
      while i < |order|
        invariant 0 <= i <= |order|
        invariant phraseLast == old(phraseLast) && phrases == old(phrases)
        invariant forall j :: 0 <= j < i ==> !PhraseFires(phrases[order[j]], old(LastOf(order[j])), content, now, regex)
      {
        var name := order[i];
        if PhraseFires(phrases[name], LastOf(name), content, now, regex) {
          phraseLast := phraseLast[name := Some(now)];
          return Some(name);
        }
        i := i + 1;
      }
      return None;
    }
  }

  /**
   * A phrase set up with `watchdog phrase` is never reported as written
   * (the command raises and the listener raises), and is reported as
   * intended.
   */
  method PhraseNeverReported() returns (setAsWritten: PhraseCommandOutcome, scanAsWritten: PhraseScan, intended: Option<string>)
    ensures setAsWritten == PhraseTypeError && scanAsWritten == ScanAttributeError
    ensures intended == Some("spam")
  {
    var regex := (p: string, c: string) => true;
    var written := new Watchdog();
    setAsWritten := written.SetPhraseAsWritten("spam", 600, Some("buy"), true, 1);
    scanAsWritten := written.WatchPhrasesAsWritten("buy now", 1000, regex);
    var w := new Watchdog();
    var outcome := w.SetPhrase("spam", 600, Some("buy"), true, 1);
    assert w.phrases == map["spam" := Phrase(1, 600, "buy")];
    assert w.LastOf("spam") == None;
    assert PhraseFires(w.phrases["spam"], w.LastOf("spam"), "buy now", 1000, regex);
    intended := w.WatchPhrases(["spam"], "buy now", 1000, regex);
  }

  /** A phrase's watchdog fires: a positive cooldown that has passed, and a regex match. */
  predicate PhraseFires(p: Phrase, last: Option<int>, content: string, now: int, regex: (string, string) -> bool) {
    p.cooldown > 0 && Reports(p.cooldown, last, now) && regex(p.phrase, content)
  }

  // ------------------------------------------------------ per-user image log

  /** `LOGS_PER_CHANNEL_USER`. */
  const LOGS_PER_CHANNEL_USER := 5

  datatype Logged = Logged(id: int, createdAt: int, images: nat)

  /** A `deque(maxlen=5)` after an append: the last five items. */
  function Bounded(s: seq<Logged>): (r: seq<Logged>)
    ensures |r| <= LOGS_PER_CHANNEL_USER
    ensures |s| <= LOGS_PER_CHANNEL_USER ==> r == s
    ensures |s| > LOGS_PER_CHANNEL_USER ==> r == s[|s| - LOGS_PER_CHANNEL_USER..]
  {
    if |s| > LOGS_PER_CHANNEL_USER then s[|s| - LOGS_PER_CHANNEL_USER..] else s
  }

  /** Images in the log's messages younger than 300 seconds. */
  function RecentImages(log: seq<Logged>, now: int): nat {
    if |log| == 0 then 0
    else (if now - log[0].createdAt < 300 then log[0].images else 0) + RecentImages(log[1..], now)
  }

  predicate Purged(m: Logged, now: int) { now - m.createdAt < 300 && m.images > 0 }

  /** The log after an excess: the recent messages with images are deleted and dropped. */
  function Unpurged(log: seq<Logged>, now: int): seq<Logged> {
    if |log| == 0 then []
    else (if Purged(log[0], now) then [] else [log[0]]) + Unpurged(log[1..], now)
  }

  function PurgedOf(log: seq<Logged>, now: int): seq<Logged> {
    if |log| == 0 then []
    else (if Purged(log[0], now) then [log[0]] else []) + PurgedOf(log[1..], now)
  }

  /** An excess splits the log: the purged messages are exactly the recent ones with images, the rest stay. */
  lemma {:induction false} PurgeSplits(log: seq<Logged>, now: int)
    ensures |Unpurged(log, now)| + |PurgedOf(log, now)| == |log|
    ensures forall m :: m in Unpurged(log, now) <==> m in log && !Purged(m, now)
    ensures forall m :: m in PurgedOf(log, now) <==> m in log && Purged(m, now)
  {
    if |log| > 0 {
      PurgeSplits(log[1..], now);
      assert forall m :: m in log <==> m == log[0] || m in log[1..];
    }
  }

  /** The loop over `list(user_logs)`: delete and drop each recent message with images. */
  method Purge(log: seq<Logged>, now: int) returns (kept: seq<Logged>, deleted: seq<Logged>)
    ensures kept == Unpurged(log, now)
    ensures deleted == PurgedOf(log, now)
  {
    deleted, kept := [], [];
    var i := 0;
    while i < |log|
      invariant 0 <= i <= |log|
      invariant Unpurged(log, now) == kept + Unpurged(log[i..], now)
      invariant PurgedOf(log, now) == deleted + PurgedOf(log[i..], now)
    {
      assert log[i..][0] == log[i] && log[i..][1..] == log[i + 1..];
      ghost var keptRest := Unpurged(log[i + 1..], now);
      ghost var deletedRest := PurgedOf(log[i + 1..], now);
      if Purged(log[i], now) {
        assert Unpurged(log[i..], now) == keptRest;
        assert PurgedOf(log[i..], now) == [log[i]] + deletedRest;
        assert deleted + ([log[i]] + deletedRest) == (deleted + [log[i]]) + deletedRest;
        deleted := deleted + [log[i]];
      } else {
        assert Unpurged(log[i..], now) == [log[i]] + keptRest;
        assert PurgedOf(log[i..], now) == deletedRest;
        assert kept + ([log[i]] + keptRest) == (kept + [log[i]]) + keptRest;
        kept := kept + [log[i]];
      }
      i := i + 1;
    }
    assert log[i..] == [];
    assert kept + [] == kept && deleted + [] == deleted;
  }

  datatype ImageOutcome = NoLimit | ImageOnly(deleteIt: bool) | WithinLimit | Excess(deleted: seq<Logged>)

  /** The per-(channel, user) logs of `mod_message_images`. */
  class ImageLogs {
    var logs: map<(int, int), seq<Logged>>

    ghost predicate Valid()
      reads this
    {
      forall k :: k in logs ==> |logs[k]| <= LOGS_PER_CHANNEL_USER
    }

    constructor ()
      ensures Valid() && logs == map[]
    {
      logs := map[];
    }

    /**
     * A message in a channel with an image limit: 0 is no limit; a negative
     * limit allows only messages with images; a positive one logs the
     * message, counts the images of the last five minutes, and on excess
     * deletes the recent image messages and drops them from the log.
     */
    method OnMessage(key: (int, int), m: Logged, limit: int, now: int) returns (r: ImageOutcome)
      requires Valid()
      modifies this
      ensures Valid()
      ensures limit == 0 ==> r == NoLimit && logs == old(logs)
      ensures limit < 0 ==> r == ImageOnly(m.images == 0) && logs == old(logs)
      ensures limit > 0 ==>
        var log := Bounded((if key in old(logs) then old(logs)[key] else []) + [m]);
        (RecentImages(log, now) <= limit ==> r == WithinLimit && logs == old(logs)[key := log]) &&
        (RecentImages(log, now) > limit ==> r == Excess(PurgedOf(log, now)) && logs == old(logs)[key := Unpurged(log, now)])
    {
      if limit == 0 {
        return NoLimit;
      }
      if limit < 0 {
        return ImageOnly(m.images == 0);
      }
      var log := Bounded((if key in logs then logs[key] else []) + [m]);
      if RecentImages(log, now) <= limit {
        logs := logs[key := log];
        return WithinLimit;
      }
      var kept, deleted := Purge(log, now);
      PurgeSplits(log, now);
      logs := logs[key := kept];
      return Excess(deleted);
    }
  }
}
