# Misc-cogs model

A Dafny model of the logic inside a collection of Red-DiscordBot cogs. Each
cog's Python module becomes one Dafny module; `common.dfy` holds the shared
Python semantics (list removal, negative indexing and slicing, ASCII case
and whitespace handling, stable sorting, word splitting).

- **MenuListener** (`menulistener.dfy`): the registry of reaction menus, the
  listener that routes a reaction to its menu, and the cascade of child menus
  that ends at the failsafe.
- **TimeCog** (`timecog.dfy`): the duration parser behind `remindme`, `every`
  and `schedule`; the divmod formatters; hour and meridiem normalisation; one
  user's reminder list with the reminder loop's advance rule; and a guild's
  schedules.
- **AutoMod** (`automod.dfy`): the matching rules (the pad check digit,
  room-code detection, custom `:name:` patterns and the include/exclude
  combinator). It also covers the use counts of patterns in channel white-
  and black-lists, the watchdog cooldowns, and the bounded per-user message
  log.
- **BadUser** (`baduser.dfy`, `baduser_helper.dfy`): strikes, bans, the
  opted-in server list and the privacy setting. Beside it, the helper
  module `baduser_helper.py` fits a user's latest messages into Discord's
  length budget. The cog never imports that helper: `record_bad_user` joins
  the raw message log into the strike record with no budget.
- **GlobalAdmin** (`globaladmin.dfy`): per-user permission sets.
- **Todo** (`todo.dfy`): per-user to-do lists.
- **Friend** (`friend.dfy`): the friend list.
- **Donations** (`donations.dfy`): custom commands and embeds, and the
  listener that answers them.
- **GrantRole** (`grantrole.dfy`): the roles granted on join, and the
  mapping from message and emoji to a role granted on reaction.
- **Memes** (`memes.dfy`): memes, the `{...}` placeholder scanner and the
  meme listener.
- **Stickers** (`stickers.dfy`): named image links grouped into packs by a
  two-word name, and the lookup that answers a prefixed sticker name.
- **FancySay** (`fancysay.dfy`): spelling text out in emoji, reacting to a
  message with letter emoji, building an embed from optional fields, and
  yelling.
- **RepoInfo** (`repoinfo.dfy`): the help listing, both as embed fields and
  as a plain 80-column table.
- **OnlinePlot** (`onlineplot.dfy`): counting member statuses under a
  time-of-day index, averaging a weekday's rows, and shifting them into the
  viewer's time zone. The time-zone suffix that the queries append to
  `record_date` is the viewer's UTC offset with its sign negated. SQLite
  reads a suffix as the zone the time is written in and converts it to UTC.
  So the negated suffix moves the stored UTC rows into the viewer's local
  time.
- **DevUtils** and **TrUtils** (`devutils.dfy`, `trutils.dfy`): reload
  followed by re-run, the pip update reply sequence, and `delaycommand`.

Settings that the cogs keep in dictionaries and lists and update in place
are modelled as classes with `map` and `seq` fields. Their methods state the
whole new state. The pure parts (parsers, formatters, lookups) are
functions, and lemmas state their properties.

Whatever the cogs get from outside arrives as a parameter:

- the Discord API (members, roles, channels, reactions and sending);
- the command lookup `get_command`;
- the permission checks;
- the regular-expression engine where its pattern is not trivial;
- the pip subprocess's standard error;
- the display-width function;
- the current time.

Where the code and its description differ, the model follows the code. For
example, `unregister` in the menu listener leaves the completion state of
other menus as it is. Where the code is evidently wrong, as with the
watchdog phrases, the model has the code as written beside a corrected
version. The as-written member shows the fault, and the rest of the model
uses the corrected one (see "## Findings").

Some behaviour is modelled as written and is documented by lemmas, not
corrected:

- With a name width above 77, `width_maker` makes a description longer than
  the original (`RepoInfo.WideNameLengthensDoc`).
- A sticker name that contains a line break is not a pack.
- The second `delaycommand` does not strip the invocation prefix
  (`TrUtils.PrefixedCommandDiffers`).
- `.seconds` drops whole days, so a daily interval is stored as zero
  (`TimeCog.DailyIntervalStoresZero`).
- The menu listener's `unregister` of an absent name replies and then
  raises.
- A cascade with no child-data function spins down to the failsafe.
- `deletestrike` and `remindme_remove` accept negative indexes, which count
  from the end.
- The message helper's budget check leaves out the newline that joins the
  lines.
- `delaycommand` rejects an empty command, because `get_command("")` is
  `None`.

## Model

| member | source | states |
|---|---|---|
| Common.Count | fancysay/fancysay.py:122 | `list.count`/`str.count`: at most the length, and zero iff the item is absent |
| Common.RemoveFirst | friend/friend.py:55 | `list.remove` of a present item drops one occurrence (one shorter, the multiset less that item); an absent item leaves the list as it is |
| Common.FirstIndex | friend/friend.py:55 | the position `list.remove` removes at: an occurrence of the item with none before it |
| Common.RemoveFirstAt | friend/friend.py:55 | `list.remove` drops exactly the first occurrence and keeps everything else in its order |
| Common.RemoveFirstNoDup | friend/friend.py:55 | removing from a list without repeats leaves none, and the item is gone |
| Common.RemoveFirstMembers | friend/friend.py:55 | removing an item keeps exactly the other items |
| Common.RemoveAll | automod/automod.py:688-690 | `str.replace(c, '')`: the text without `c`, every other character kept |
| Common.PyIndex | baduser/baduser.py:260 | Python list indexing: defined iff `-n <= i < n`, counting a negative index from the end |
| Common.PySliceTo | repoinfo/repoinfo.py:108 | Python's `s[:k]`: a prefix of the text, `k` long (clipped) for a non-negative `k`, `len + k` long (at least 0) for a negative one |
| Common.Reverse | baduser/baduser_helper.py:49 | `list.reverse`: the same items in the opposite order |
| Common.Lower | todo/todo.py:104 | `str.lower` on ASCII: same length, each letter lower-cased |
| Common.LowerIdempotent | todo/todo.py:104 | lower-casing twice is lower-casing once |
| Common.Upper | fancysay/fancysay.py:196 | `str.upper` on ASCII: same length, each letter upper-cased |
| Common.RStripChars | fancysay/fancysay.py:196 | `rstrip(chars)`: a prefix not ending in one of the characters, with only those characters cut |
| Common.LStrip | stickers/stickers.py:124 | `lstrip()`: a suffix not starting with whitespace, with only whitespace cut |
| Common.RStrip | stickers/stickers.py:124 | `rstrip()`: a prefix not ending with whitespace, with only whitespace cut |
| Common.SplitWords | devutils/devutils.py:78 | `str.split()`: every word is non-empty and has no whitespace |
| Common.SplitWordsNoSpace | devutils/devutils.py:78 | a text without whitespace is a single word, or no word when it is empty |
| Common.SplitWordsAtSpace | devutils/devutils.py:78 | splitting a text at any whitespace character gives the words before it followed by the words after it; with the previous row this makes the words exactly the maximal whitespace-free runs, in order |
| Common.WordLengthNoSpace | devutils/devutils.py:78 | the first word of a text without whitespace is all of it |
| Common.WordLengthPrefix | devutils/devutils.py:78 | text after a whitespace character does not change the first word |
| Common.WordLength | devutils/devutils.py:78 | the first word runs up to the first whitespace |
| Common.DigitString | grantrole/grantrole.py:86-87 | `str()` of a natural number: non-empty decimal digits |
| Common.DigitStringRoundTrip | grantrole/grantrole.py:86-87 | the digits of `str(n)` read back as n |
| Common.SortBy | stickers/stickers.py:103 | `sorted` with a key order: a permutation of the input |
| Common.SortBySorted | stickers/stickers.py:103 | under a total preorder the result is sorted |
| Common.SortByLength | repoinfo/repoinfo.py:80 | sorting keeps the length |
| Common.EquivalentTo | stickers/stickers.py:103 | at most as many elements as the input: those ranked equal to a given one, in input order |
| Common.InsertByStable | stickers/stickers.py:103 | inserting puts the new element before every element ranked equal to it |
| Common.SortByStable | timecog/timecog.py:278-286 | `sorted` is stable: elements ranked equal keep their input order, so `remindme_remove` tells equal times apart by storage order |
| Common.InsertBy | stickers/stickers.py:103 | inserting keeps every item and adds the new one |
| Common.InsertBySorted | stickers/stickers.py:103 | inserting into a sorted list keeps it sorted |
| Common.StrLeTotal | stickers/stickers.py:103 | Python's string order relates every two strings |
| Common.StrLeTrans | stickers/stickers.py:103 | Python's string order is transitive |
| Common.StrLeTotalPreorder | stickers/stickers.py:103 | Python's string order is a total preorder |
| Common.SortStrings | stickers/stickers.py:103-110 | `sorted` of strings: a permutation of the input, sorted in Python's string order |
| MenuListener.Tag | menulistener/menulistener.py:226 | the tagged map has the cog's menu types as keys, each entry being the cog's name prepended to its (menu, panes) pair |
| MenuListener.BuildMenuMap | menulistener/menulistener.py:219-226 | every entry of the rebuilt map comes from a registered, loaded cog that declares that menu type (which one: MenuMapLastWins) |
| MenuListener.LastDeclarer | menulistener/menulistener.py:221-226 | reference for which cog wins a menu type: the last registered, loaded cog declaring it, or none if no such cog exists |
| MenuListener.MenuMapLastWins | menulistener/menulistener.py:219-226 | a menu type is in the rebuilt map iff some registered, loaded cog declares it, and its entry then comes from the last such cog in registration order |
| MenuListener.Attributes | menulistener/menulistener.py:228-235 | a missing `menu_type` gives MissingImsMenuType, a type not in the map gives InvalidImsMenuType, and otherwise the result is the map's entry for it |
| MenuListener.DefaultData | menulistener/menulistener.py:197-204 | the lookup errors propagate; CogNotLoaded iff the owning cog is not loaded; a loaded cog with a default-data hook yields exactly what the hook returns, one without yields `{}` |
| MenuListener.CascadeStep | menulistener/menulistener.py:159-183 | one loop pass, each branch stated: a lookup error escapes; an unloaded cog ends the cascade; no child-data function or no simulated emoji spins; a missing child message or child state ends it; the merged child state (child state updated by the extra data) raising ends it; otherwise the child is transitioned with the merged state, the simulated emoji and the parent's default data |
| MenuListener.CascadeFrom | menulistener/menulistener.py:156-183 | the reference cascade from iteration `done`: the iteration count ends between `done` and the failsafe of 10 |
| MenuListener.CascadeBounded | menulistener/menulistener.py:157-162 | the cascade never runs more than 10 iterations and makes at most one transition per iteration |
| MenuListener.CascadeSpinsWithoutChildFunc | menulistener/menulistener.py:159-172 | a state with a child link whose panes give no child-data function for the emoji spins to the failsafe with no transitions at all |
| MenuListener.CascadeTransitionsResolve | menulistener/menulistener.py:172-183 | every cascade transition applies to a fetched child message whose state names a known menu type |
| MenuListener.Registry.constructor | menulistener/menulistener.py:57-60 | no cogs are registered, the menu map is empty and it is not complete |
| MenuListener.Registry.Register | menulistener/menulistener.py:206-211 | a cog's name is appended only if it is absent, and the reload that follows rebuilds the map, which is complete iff every registered cog is loaded |
| MenuListener.Registry.Reload | menulistener/menulistener.py:213-226 | a complete map is left as it is; otherwise the map is rebuilt from the loaded registered cogs and is complete iff none of them is missing; the cog list is unchanged |
| MenuListener.Registry.Unregister | menulistener/menulistener.py:87-93 | an unknown name ends in ValueError (after the notice), a known one has its first occurrence removed, and the menu map is not touched |
| MenuListener.Registry.EmojiClicked | menulistener/menulistener.py:140-154 | the emoji is returned iff it is a default menu emoji or some mapped panes class lists it |
| MenuListener.Registry.RespondWithChild | menulistener/menulistener.py:156-183 | the loop's result equals the cascade reference from iteration 0, so it runs at most 10 iterations |
| MenuListener.Registry.ReactionFilters | menulistener/menulistener.py:185-195 | KeyError iff the state has no original author; otherwise the filters hold that author and the panes' emojis, and the friends are that author's friends per the Friend cog, or none when it is not loaded |
| MenuListener.Registry.OnReaction | menulistener/menulistener.py:95-138 | each guard's outcome in the handler's order: an unknown emoji is ignored (iff), a removal outside a DM is ignored, a missing message fails NotFoundParent, a message not by the bot, without the reaction or without a non-empty state is ignored; then a lookup error fails, a state without an original author fails with KeyError, `should_respond` (given the reacting member) saying no is ignored, an unloaded cog is ignored; otherwise the message is transitioned with the default data plus `reaction` and the cascade is the reference from iteration 0; only a reaction that passed every guard is handled |
| TimeCog.UnitOf | timecog/timecog.py:717-735 | "mo…" is months before any other "m…" is minutes; h/d/w/y follow; an "s…" unit is the seconds error; every other first letter is the invalid-unit error naming that unit |
| TimeCog.AddUnitIsPlus | timecog/timecog.py:717-728 | adding one unit to the accumulator is adding that unit's delta to it |
| TimeCog.ShiftShift | timecog/timecog.py:713-738 | shifting a parse result by two deltas in turn is shifting it by their sum |
| TimeCog.Step | timecog/timecog.py:714-737 | one loop pass: the unit's own error passes through; "Be reasonable" (the OverflowError) iff a timedelta unit is out of the 999999999-day range, or the plain running sum leaves it; a month or year never raises; otherwise the unit is added to the accumulator |
| TimeCog.SumFrom | timecog/timecog.py:713-738 | no matches leave the accumulator; a plain result after at least one match is within the timedelta range |
| TimeCog.SumTins | timecog/timecog.py:713-738 | a plain (timedelta) result is always within the 999999999-day range |
| TimeCog.SumFromShift | timecog/timecog.py:713-738 | whatever the loop accepts from any accumulator is that accumulator plus the plain sum of one delta per match |
| TimeCog.SumTinsAppend | timecog/timecog.py:712-738 | the loop over two runs of matches is the loop over the first, then over the second from its result, with the first error winning |
| TimeCog.SumTinsFirstError | timecog/timecog.py:714-737 | the parse fails iff some match's step fails after all earlier steps succeeded, and then with that step's error (a refused unit or "Be reasonable") |
| TimeCog.RefusedUnitRefuses | timecog/timecog.py:729-735 | a refused unit anywhere refuses the whole parse, and its plain sum too |
| TimeCog.HugeMinutesUnreasonable | timecog/timecog.py:721-737 | a count of minutes beyond 999999999 days is refused with "Be reasonable" |
| TimeCog.Tin2TDelta | timecog/timecog.py:709-738 | "now" (any case, surrounding whitespace) gives the zero delta; otherwise the loop returns exactly the parse of the matches, including the OverflowError |
| TimeCog.StoredInterval | timecog/timecog.py:245 | the stored `.seconds` (of reminders here, of schedules at lines 338 and 387) is a whole number of minutes below one day; a relativedelta stores 0; a timedelta stores its minutes modulo one day |
| TimeCog.DailyIntervalStoresZero | timecog/timecog.py:245 | "1d" parses to one day of minutes, yet its stored interval is 0 |
| TimeCog.SubDayIntervalExact | timecog/timecog.py:245 | a plain interval under one day is stored exactly in seconds |
| TimeCog.Decompose | timecog/timecog.py:742-746 | the years/days/hours/minutes/seconds recombine to the input (floor divmod) and each part is below its modulus |
| TimeCog.JoinHead | timecog/timecog.py:756 | joining non-empty parts gives a non-empty string starting with the first part's first character |
| TimeCog.Ydhm | timecog/timecog.py:741-756 | `ydhm` never answers the empty string |
| TimeCog.YdhmUnderAMinute | timecog/timecog.py:741-756 | `ydhm` answers "<1 minute" iff the remaining time is in [0, 60) seconds |
| TimeCog.YdhmExamples | timecog/timecog.py:748-756 | 3600 s reads "1 hr" and 7320 s reads "2 hrs 2 mins" (singular and plural) |
| TimeCog.HrsMins | timecog/timecog.py:672-675 | the minutes are below 60, the whole hours and minutes are the largest not beyond the input, and under a day the hours are below 24 |
| TimeCog.FmtHrsMins | timecog/timecog.py:672-675 | the text starts with the whole hours then "hrs " and ends with the minutes then "mins" |
| TimeCog.Carry | timecog/timecog.py:158-160 | hours of 24 or more carry into the day, keeping the total hours, and smaller hours are untouched |
| TimeCog.NormalizeRemindAsWritten | timecog/timecog.py:154-160 | the reminder parser's meridiem handling as written always yields an hour of the day |
| TimeCog.NormalizeExactAsWritten | timecog/timecog.py:613-619 | the exact parser's meridiem handling as written always yields an hour of the day |
| TimeCog.NoonPmBecomesMidnight | timecog/timecog.py:154-160 | as written, 12 pm moves to hour 0 of the next day in both parsers |
| TimeCog.ExactIgnoresUpperPm | timecog/timecog.py:613 | as written, "PM" at 4 o'clock stays 4 in the exact parser but becomes 16 in the reminder parser |
| TimeCog.NormalizeHour | timecog/timecog.py:154-160 | as intended: pm in any case maps hours 1-12 to 13-23 and keeps 12 as noon, am keeps the hour, and the result is an hour of the day |
| TimeCog.TickReminders | timecog/timecog.py:505-512 | the intended tick of one list: one shorter for each due one-shot |
| TimeCog.TickRemindersMembers | timecog/timecog.py:505-512 | a tick drops exactly the due one-shots, keeps every reminder not due, advances every due repeater by its interval, and adds nothing else |
| TimeCog.TickAsWritten | timecog/timecog.py:506-512 | the loop as written, from snapshot position `c`: the live list can only shrink, by at most one per remaining snapshot entry |
| TimeCog.TickAsWrittenWithoutOneShots | timecog/timecog.py:506-512 | without a due one-shot the indices stay in step and the loop as written does exactly the intended tick |
| TimeCog.TickIndexShift | timecog/timecog.py:506-512 | as written, a due one-shot before a due repeater makes the loop advance the wrong reminder, or index past the end of the list (IndexError) |
| TimeCog.TickValueError | timecog/timecog.py:506-512 | as written, when the shifted index lands on a later due one-shot, that one-shot is "advanced" by -1 and then cannot be removed by value (ValueError) |
| TimeCog.TimeLeTotal | timecog/timecog.py:259 | ordering reminders by time is a total preorder, so `sorted(key=x[0])` is well defined |
| TimeCog.Deliveries | timecog/timecog.py:513-519 | at most one delivery per reminder |
| TimeCog.DeliveriesMembers | timecog/timecog.py:505-519 | exactly the due reminders are delivered, each to its own channel with its own text |
| TimeCog.RemoveNthInTimeOrder | timecog/timecog.py:278-286 | the k-th reminder in time order is stored, no earlier one is later and no later one is earlier, and removing it takes exactly one copy |
| TimeCog.ReminderList.constructor | timecog/timecog.py:52-82 | a new user has no reminders |
| TimeCog.ReminderList.RemindMe | timecog/timecog.py:195-212 | appends a one-shot (interval -1) for the DM (channel 0) or for the current channel |
| TimeCog.ReminderList.Every | timecog/timecog.py:243-245 | appends a repeating DM reminder whose interval is the stored `.seconds` of the parsed delta |
| TimeCog.ReminderList.Purge | timecog/timecog.py:288-292 | the user's reminders become empty |
| TimeCog.ReminderList.Remove | timecog/timecog.py:278-286 | a number beyond the count is refused with nothing changed; Python's negative index makes an out-of-range position raise; otherwise the chosen reminder in time order is removed once |
| TimeCog.ReminderList.Tick | timecog/timecog.py:505-519 | the list after a tick is the intended tick of the old list, and a delivery is made for each due reminder, in order |
| TimeCog.TickSchedules | timecog/timecog.py:520-526 | the names are kept, each firing schedule (enabled, not ended, due) advances by exactly its interval, and the rest are unchanged |
| TimeCog.TickOne | timecog/timecog.py:520-526 | only the next firing time can change; a firing schedule moves on by exactly its interval, and any other is unchanged |
| TimeCog.ZeroIntervalFiresEveryTick | timecog/timecog.py:524-526 | a firing schedule with interval 0 is still due after the tick, so it fires on every pass |
| TimeCog.ScheduleTable.constructor | timecog/timecog.py:52-82 | a new guild has no schedules |
| TimeCog.ScheduleTable.Create | timecog/timecog.py:328-342 | a taken name is refused with nothing changed; otherwise an enabled schedule is added, starting and next firing at the start, ending at 2e11, with the stored interval and the current channel |
| TimeCog.ScheduleTable.Update | timecog/timecog.py:347-398 | an unknown name is refused with nothing changed; otherwise exactly that schedule is replaced by its edited copy |
| TimeCog.ScheduleTable.Remove | timecog/timecog.py:470-478 | the result says whether the name existed, and the schedule is gone afterwards |
| TimeCog.ScheduleTable.ChannelAdd | timecog/timecog.py:404-415 | an unknown schedule or an already registered channel is refused with nothing changed; otherwise the channel is appended |
| TimeCog.ScheduleTable.ChannelRemove | timecog/timecog.py:417-428 | an unknown schedule or an unregistered channel is refused with nothing changed; otherwise its first occurrence is removed, and it is no longer listed since channels never repeat |
| TimeCog.ScheduleTable.Tick | timecog/timecog.py:520-531 | the schedules after a pass are the reference tick of the old ones, and the fired names are exactly those firing |
| AutoMod.PadCheckdigit | automod/automod.py:696-703 | the loop returns exactly `Checkdigit(n)`: none when fewer than eight characters or a non-digit among the first eight (the `int()` raises), else whether the eighth digit is 7 plus the first seven digits, mod 10 |
| AutoMod.Checkdigit | automod/automod.py:696-703 | the check yields an answer iff the text has eight characters, the first eight all digits; otherwise `int()` raises |
| AutoMod.DigitSumChange | automod/automod.py:700-702 | changing one digit among the first k changes the digit sum by exactly the difference of the two digits |
| AutoMod.DigitSumSame | automod/automod.py:700-702 | the digit sum of the first k characters depends only on those characters |
| AutoMod.SingleDigitErrorDetected | automod/automod.py:696-703 | a code whose check digit holds fails the check once any one of its first eight digits is replaced by a different digit |
| AutoMod.StartsWithCode | automod/automod.py:686-693 | after removing spaces and then tildes, fewer than eight characters is no code, otherwise the answer is the check digit of the first eight |
| AutoMod.MatchesPattern | automod/automod.py:718-731 | an empty pattern never matches; `:starts_with_code:` and `:pad_checkdigit:` run their check with a raise read as no match; every other pattern is the regex match |
| AutoMod.MatchesIncludeExclude | automod/automod.py:712-715 | matches iff the include pattern matches and the exclude pattern does not |
| AutoMod.EmptyPatterns | automod/automod.py:712-720 | an empty include pattern never matches; an empty exclude pattern leaves the include pattern's answer |
| AutoMod.CustomExceptionIsNoMatch | automod/automod.py:686-703 | a text under eight characters matches neither custom pattern |
| AutoMod.HoldersAdd | automod/automod.py:216-228 | appending a name to one list adds exactly that list to the set of lists holding the name and changes no other name's lists |
| AutoMod.HoldersRemove | automod/automod.py:233-245 | removing a listed name from a list without repeats removes exactly that list from its holders and changes no other name's lists |
| AutoMod.AutoModGuild.constructor | automod/automod.py:96-97 | a guild starts with no patterns and no channel lists, and the accounting holds |
| AutoMod.AutoModGuild.AddPattern | automod/automod.py:183-196 | too many arguments or a pattern that does not compile leave the patterns as they were; otherwise exactly that name is (re)defined with zero uses; the lists never change |
| AutoMod.AutoModGuild.RmPattern | automod/automod.py:201-211 | an undefined or used pattern is refused and nothing changes; an unused one is deleted and no list holds it |
| AutoMod.AutoModGuild.AddToListAsWritten | automod/automod.py:216-228 | with the inverted guard a defined pattern is refused as undefined, and an undefined name not yet listed is appended before the use count raises, breaking the accounting |
| AutoMod.AutoModGuild.AddToList | automod/automod.py:250-262 | an undefined name is refused; a listed one is left as is; otherwise the name is appended once and its use count goes up by one; the accounting is kept |
| AutoMod.AutoModGuild.RmFromList | automod/automod.py:233-245 | a name not in the list is refused; otherwise its first occurrence is removed, the list no longer holds it, its use count goes down by one, and the accounting is kept |
| AutoMod.Reports | automod/automod.py:613-618 | with no earlier sighting a report happens iff the cooldown is under 9999 seconds; otherwise iff strictly more than the cooldown has passed |
| AutoMod.PhraseCooldown | automod/automod.py:564-566 | a stored phrase cooldown is at least 300, and a cooldown of 300 or more is kept |
| AutoMod.Watchdog.constructor | automod/automod.py:96-106 | no watched users or phrases and no sightings |
| AutoMod.Watchdog.SetUser | automod/automod.py:509-537 | no cooldown reports the stored one or that none is set; 0 clears the user; a nonzero cooldown without a reason is refused; otherwise the user is watched with that cooldown and reason; nothing else changes |
| AutoMod.Watchdog.SetPhrase | automod/automod.py:542-573 | as intended, over the registered `watchdog_phrases`: a cooldown of 0 deletes the entry keyed by the phrase text; a missing or uncompilable phrase is refused; otherwise the name stores the phrase with the cooldown raised to at least 300 and its sighting is reset |
| AutoMod.Watchdog.SetPhraseAsWritten | automod/automod.py:551 | as written the command opens the unregistered setting `phrases`, whose None value raises TypeError, so nothing is ever stored |
| AutoMod.Watchdog.WatchUser | automod/automod.py:594-625 | an unwatched user or a non-positive cooldown does nothing; otherwise the sighting is recorded and it reports iff the cooldown has passed since the previous one |
| AutoMod.Watchdog.WatchPhrases | automod/automod.py:627-654 | as intended, over the registered `watchdog_phrases`: reports the first phrase in dictionary order that is off cooldown and matches, recording only its sighting; reports nothing and records nothing iff no phrase fires |
| AutoMod.Watchdog.WatchPhrasesAsWritten | automod/automod.py:631 | as written the listener calls `.items()` on the unregistered `phrases`, which raises AttributeError on every message it scans |
| AutoMod.PhraseNeverReported | automod/automod.py:542-654 | the phrase "spam" set with `watchdog phrase` is never reported as written (both the command and the listener raise), and is reported as intended |
| AutoMod.Bounded | automod/automod.py:26-105 | the log keeps at most the last five messages, and is unchanged while it holds five or fewer |
| AutoMod.PurgeSplits | automod/automod.py:366-376 | the purge splits the log: the purged ones are exactly the messages under 300 seconds old with images, the kept ones are exactly the rest |
| AutoMod.Purge | automod/automod.py:366-376 | the loop keeps exactly `Unpurged` and deletes exactly `PurgedOf` of the log |
| AutoMod.ImageLogs.constructor | automod/automod.py:105 | no logs |
| AutoMod.ImageLogs.OnMessage | automod/automod.py:346-386 | limit 0 does nothing; a negative limit deletes a message without images; a positive one appends to the bounded log and, when the recent image count exceeds the limit, deletes the recent messages with images and keeps the rest |
| BadUser.WithBadusers | baduser/baduser.py:533-543 | afterwards the server exists with a strike map; every user's strikes everywhere, and every other server, are as before |
| BadUser.BuEnabled | baduser/baduser.py:663-664 | one server id per opt-in entry, in order, whether stored as a number or as its string |
| BadUser.OptIn | baduser/baduser.py:666-668 | `add_bu_enabled` appends one entry and keeps the rest, and the server is then enabled |
| BadUser.OptOutAsWritten | baduser/baduser.py:670-673 | as written only one string-form entry is removed; a list without one is unchanged |
| BadUser.OptOutAsWrittenKeepsServer | baduser/baduser.py:666-673 | opting out right after opting in (which stores the number) finds no string entry, so the list is unchanged and the server is still enabled |
| BadUser.OptOut | baduser/baduser.py:670-673 | the server is no longer enabled, and exactly the entries for other servers remain |
| BadUser.OptOutUndoesOptIn | baduser/baduser.py:663-673 | opting in then out leaves the server disabled and every other server enabled exactly when it was before |
| BadUser.PrivacyReplyDropsPrefix | baduser/baduser.py:168-169 | as written the reply for the public policy is the bare word "public", without the leading sentence |
| BadUser.PrivacyReplyAsWritten | baduser/baduser.py:168-169 | as written the private reply is the full sentence, and the public one is the bare word "public" |
| BadUser.PrivacyReply | baduser/baduser.py:168-169 | the reply is the leading sentence followed by "private" or "public" for the new policy |
| BadUser.ServersListing | baduser/baduser.py:675-685 | the servers listing the user are among the known servers, so never more of them |
| BadUser.BadUserSettings.constructor | baduser/baduser.py:522-528 | no servers, no banned users, no opted-in servers |
| BadUser.BadUserSettings.GetRoles | baduser/baduser.py:545-591 | returns the role list of that kind, and stores it (creating the server and an empty list when missing); nothing else changes |
| BadUser.BadUserSettings.AddRole | baduser/baduser.py:551-585 | the id is appended unless already listed, so it is listed afterwards; nothing else changes |
| BadUser.BadUserSettings.RmRole | baduser/baduser.py:557-597 | the id's occurrence is removed when listed, so it is not listed afterwards; nothing else changes |
| BadUser.BadUserSettings.UpdateBadUser | baduser/baduser.py:599-605 | the message is appended to that user's strikes in that server, their count goes up by one, and nobody else's strikes change; the server's roles, channel and privacy flag, and every other server, stay as they were |
| BadUser.BadUserSettings.CountUserStrikes | baduser/baduser.py:607-612 | the number of the user's strikes (0 when none), with the strike map created as a side effect |
| BadUser.BadUserSettings.SetUserStrikes | baduser/baduser.py:614-617 | that user's strikes in that server become the given list and nobody else's change; the rest of the server's entry and every other server stay as they were |
| BadUser.BadUserSettings.ClearUserStrikes | baduser/baduser.py:619-622 | the user has no entry and no strikes in that server afterwards; nobody else's strikes change, and the rest of the server's entry and every other server stay as they were |
| BadUser.BadUserSettings.UpdateChannel | baduser/baduser.py:628-641 | the server's update channel becomes the given one, removed for none; nothing else changes |
| BadUser.BadUserSettings.GetChannel | baduser/baduser.py:533-541 | the server's stored update channel, none for a server never seen; an unseen server gets an empty entry (no `badusers` dict) and nothing else changes |
| BadUser.BadUserSettings.GetStrikesPrivate | baduser/baduser.py:643-645 | the stored policy, false when none is stored; an unseen server gets an empty entry and nothing else changes |
| BadUser.ChannelReadBreaksUserData | baduser/baduser.py:533-537 | reading the channel of an unseen server makes the next user-data report raise KeyError, where it answered before |
| BadUser.BadUserSettings.ToggleStrikePrivacy | baduser/baduser.py:164-170 | the policy flips, nothing else in the server's entry or in any other server changes, and the reply names the new policy, with the intended reply (as written, the public reply is the bare word "public") |
| BadUser.BadUserSettings.AddBannedUser | baduser/baduser.py:655-657 | the user's global ban reason is set and nothing else changes |
| BadUser.BadUserSettings.RmBannedUser | baduser/baduser.py:659-661 | the user's global ban is gone, absent or not, and nothing else changes |
| BadUser.BadUserSettings.AddBuEnabled | baduser/baduser.py:666-668 | the server id is appended to the opt-in list and nothing else changes |
| BadUser.BadUserSettings.RmBuEnabled | baduser/baduser.py:670-673 | the opt-in list loses every entry for the server (the intended lookup) and nothing else changes |
| BadUser.BadUserSettings.DeleteStrike | baduser/baduser.py:254-266 | no strikes or a number beyond them is refused; otherwise the strike at `strike_num - 1` with Python's negative indexing, out of range raising, is removed once and the count drops by one; nobody else's strikes change; apart from the strike map the accessor creates, nothing else in the settings changes |
| BadUser.BadUserSettings.GetUserData | baduser/baduser.py:675-685 | the global ban reason or "" and the number of servers listing the user, at most the number of servers; none (KeyError) when some server has no strike map |
| BadUser.BadUserSettings.ClearUserData | baduser/baduser.py:687-689 | nothing changes |
| BadUser.BadUserSettings.ClearUserDataFull | baduser/baduser.py:691-697 | the global ban goes; it completes iff every server has a strike map, and then no server lists the user; each server either is unchanged or lost only that user; other users keep their strikes |
| BadUser.CheckPunishment | baduser/baduser.py:430-463 | nothing unless the server opted in and the roles changed; it reports nothing iff no added role is punishment, positive or neutral and no removed role is positive or neutral; a report is about an added role first, classified punishment before positive before neutral, else a removed one |
| BadUserHelper.Clean | baduser/baduser_helper.py:40 | the content unchanged up to 200 characters, else its first 200 and "..." |
| BadUserHelper.JoinAppendLength | baduser/baduser_helper.py:46 | joining one more line with newlines adds its length plus one newline, when there were lines before |
| BadUserHelper.Gather | baduser/baduser_helper.py:38-48 | the collected lines extend the given ones and what is left is a prefix of the log; the messages collected and left are all of them, or all but the one overflowing message that was popped |
| BadUserHelper.GatherWithinBudget | baduser/baduser_helper.py:38-48 | the collected lines, joined, are within 3900 characters plus one newline |
| BadUserHelper.Newest | baduser/baduser_helper.py:38-39 | the lines of the k newest messages, newest first |
| BadUserHelper.GatherStep | baduser/baduser_helper.py:38-48 | one iteration: the newest message's line stops the loop if it would overflow (the message is still popped), else it is collected and the loop continues on the rest |
| BadUserHelper.TakesOneMore | baduser/baduser_helper.py:38-48 | collecting the newest message and then the newest of the rest is collecting the newest of the whole log |
| BadUserHelper.GatherTakesNewest | baduser/baduser_helper.py:38-48 | the loop collects lines of the newest messages, newest first, and leaves the older ones less the one that stopped it |
| BadUserHelper.NewestInOrder | baduser/baduser_helper.py:49 | reversed, the newest lines list those messages oldest first |
| BadUserHelper.NewestReversed | baduser/baduser_helper.py:38-49 | what the loop takes from an empty start has the digest's shape |
| BadUserHelper.DigestOldestFirst | baduser/baduser_helper.py:33-51 | the digest lists the newest messages oldest first, within the budget, and the log keeps exactly the older messages not popped |
| BadUserHelper.MessageLog.constructor | baduser/baduser_helper.py:33 | the log holds the given messages |
| BadUserHelper.MessageLog.LatestMessagesDescription | baduser/baduser_helper.py:33-51 | none and the log untouched when empty; otherwise the log is what the loop leaves and the description is the header followed by the collected lines oldest first |
| GlobalAdmin.Lookup | globaladmin/globaladmin.py:147-151 | a user's own override decides; without one the registered default; for an unregistered perm the caller's fallback |
| GlobalAdmin.GlobalAdminSettings.GetPerm | globaladmin/globaladmin.py:147-151 | on the stored settings: the user's override decides, else the registered default, else the caller's fallback |
| GlobalAdmin.WithOverride | globaladmin/globaladmin.py:117-119 | setting an override keeps every user and adds the user when new |
| GlobalAdmin.Stripped | globaladmin/globaladmin.py:131-134 | every user stays, and no user's overrides mention the perm |
| GlobalAdmin.OverrideDecides | globaladmin/globaladmin.py:114-151 | after a grant or deny the user's check of that perm answers the value set, and every other user or perm answers as before |
| GlobalAdmin.StrippedRestoresDefault | globaladmin/globaladmin.py:131-151 | after a reset every user's check of the perm answers the registered default (or the fallback), and other perms answer as before |
| GlobalAdmin.GlobalAdminSettings.constructor | globaladmin/globaladmin.py:107-112 | no registered perms and no users |
| GlobalAdmin.GlobalAdminSettings.AddUserPerm | globaladmin/globaladmin.py:114-120 | -1 exactly for an unregistered perm, and then nothing changes; otherwise the user's override is set; registrations never change |
| GlobalAdmin.GlobalAdminSettings.AddPerm | globaladmin/globaladmin.py:122-124 | the perm is registered with that default and the users are untouched |
| GlobalAdmin.GlobalAdminSettings.RmPerm | globaladmin/globaladmin.py:126-129 | the perm's registration is gone, present or not, and the users are untouched |
| GlobalAdmin.GlobalAdminSettings.RefreshPerm | globaladmin/globaladmin.py:131-135 | the users become the overrides with that perm stripped everywhere; registrations unchanged |
| GlobalAdmin.GlobalAdminSettings.RmUserPerm | globaladmin/globaladmin.py:137-145 | -1 exactly for an unregistered perm; an unknown user changes nothing; otherwise only that user's override of the perm is removed |
| GlobalAdmin.GlobalAdminSettings.GetUsersWithPerm | globaladmin/globaladmin.py:156-161 | exactly the users with an override of the perm, each once |
| GlobalAdmin.GlobalAdminSettings.Grant | globaladmin/globaladmin.py:76-90 | the reply is "Invalid perm name." exactly when the perm is unregistered, and then nothing changes; otherwise the override is set |
| GlobalAdmin.GlobalAdminSettings.Unregister | globaladmin/globaladmin.py:57-64 | the perm is stripped from every user and its registration removed |
| Todo.Without | todo/todo.py:64 | `pop(i)`: one shorter, the items before `i` in place and the ones after shifted down by one |
| Todo.WithoutMultiset | todo/todo.py:64 | popping an item loses exactly that item |
| Todo.MoveToFront | todo/todo.py:97-98 | `pop` then `insert(0, ...)`: same length and items, with the chosen item first |
| Todo.MoveToFrontKeepsOthers | todo/todo.py:97-98 | moving item `i` to the top keeps the length and the items, puts it first and keeps the others in their order |
| Todo.TodoUser.constructor | todo/todo.py:14 | an empty "todo" list, focused |
| Todo.TodoUser.Add | todo/todo.py:48-54 | the item is appended to the focused list only, and the reply number is its position there |
| Todo.TodoUser.Remove | todo/todo.py:56-65 | a number outside 1..length is refused and nothing changes; otherwise that item is returned and popped from the focused list only |
| Todo.TodoUser.PurgeAsWritten | todo/todo.py:67-75 | as written: NameError, since `tsutils` is never imported, and nothing changes |
| Todo.TodoUser.Purge | todo/todo.py:67-75 | as intended: once confirmed the focused list is emptied; otherwise nothing changes |
| Todo.PurgeNeverClears | todo/todo.py:67-75 | a list with an item keeps it under the purge as written and loses it under the intended purge |
| Todo.TodoUser.Edit | todo/todo.py:77-87 | a number outside 1..length is refused; otherwise exactly that item is replaced and its old text returned |
| Todo.TodoUser.Prioritize | todo/todo.py:89-99 | a number outside 1..length is refused; otherwise that item is moved to the top of the focused list |
| Todo.TodoUser.ChangeList | todo/todo.py:101-110 | succeeds iff the lower-cased name is a list, and then focuses it; the lists never change |
| Todo.TodoUser.ListsAdd | todo/todo.py:116-122 | the lower-cased name maps to an empty list, replacing any list of that name; the focus is kept |
| Todo.TodoUser.ListsRemove | todo/todo.py:124-136 | refused iff the lower-cased name is "todo"; otherwise that list is deleted and a focus on it returns to "todo" |
| Friend.FriendStore.constructor | friend/friend.py:18-19 | no stored lists |
| Friend.FriendStore.GetFriends | friend/friend.py:72-74 | the stored list, or empty by default |
| Friend.FriendStore.IsFriend | friend/friend.py:68-70 | a friend iff the author has a stored list holding the user |
| Friend.FriendStore.Add | friend/friend.py:40-47 | refused iff already a friend; otherwise the id is appended; either way a friend afterwards; other users' lists unchanged |
| Friend.FriendStore.Remove | friend/friend.py:49-56 | refused iff not a friend; otherwise its occurrence is removed; not a friend afterwards, every other friend kept, other users' lists unchanged |
| Donations.Drop | donations/donations.py:274 | Python's `s[k:]`: empty past the end, otherwise the suffix after `k` characters |
| Donations.NonEmpty | donations/donations.py:285-290 | an embed part is set exactly when its stored text is non-empty, and then to that text |
| Donations.BuildEmbed | donations/donations.py:281-290 | the embed shows each non-empty stored field (title, image url, footer) as stored and leaves out the empty ones |
| Donations.UserDataOf | donations/donations.py:435-449 | the report is the empty one exactly when no command name, no embed name and no insult opt-in is stored for the user |
| Donations.NothingStored | donations/donations.py:435-449 | a user with nothing stored gets the empty report |
| Donations.DonationsSettings.constructor | donations/donations.py:351-359 | no commands, embeds, disabled servers or insult opt-ins, and the roles and server unset |
| Donations.DonationsSettings.AddCustomCommand | donations/donations.py:364-370 | only the user's command changes, to the lower-cased name and the text |
| Donations.DonationsSettings.AddCustomEmbed | donations/donations.py:381-389 | only the user's embed changes, to the name lower-cased then stripped and the other parts stripped |
| Donations.DonationsSettings.StoreEmbed | donations/donations.py:383-388 | only the user's embed changes, to the one given |
| Donations.DonationsSettings.RmCustomCommandAsWritten | donations/donations.py:372-376 | a stored command raises (a dict has no `remove`) and nothing changes, absent or present |
| Donations.DonationsSettings.RmCustomCommand | donations/donations.py:372-376 | the user's command is deleted, present or not, and nothing else changes |
| Donations.DonationsSettings.RmCustomEmbedAsWritten | donations/donations.py:391-395 | a stored embed raises and nothing changes |
| Donations.DonationsSettings.RmCustomEmbed | donations/donations.py:391-395 | the user's embed is deleted, present or not, and nothing else changes |
| Donations.DonationsSettings.AddDisabledServer | donations/donations.py:400-404 | the id is appended unless already listed; nothing else changes |
| Donations.DonationsSettings.RmDisabledServer | donations/donations.py:406-410 | the id's occurrence is removed and it is no longer listed; nothing else changes |
| Donations.DonationsSettings.AddInsultsEnabled | donations/donations.py:415-419 | the id is appended unless already listed; nothing else changes |
| Donations.DonationsSettings.RmInsultsEnabled | donations/donations.py:421-425 | the id's occurrence is removed and it is no longer listed; nothing else changes |
| Donations.DonationsSettings.TogglePerks | donations/donations.py:200-209 | the server's disabled flag flips, the reply says enabled iff it was disabled, and no other server changes |
| Donations.DonationsSettings.SetDps | donations/donations.py:427-429 | the donor role, patron role and support server are stored and nothing else changes |
| Donations.DonationsSettings.ClearUserData | donations/donations.py:451-461 | afterwards nothing is stored for the user: command and embed deleted, insult opt-in removed; servers and roles untouched |
| Donations.DonationsSettings.GetUserData | donations/donations.py:435-449 | the insult flag is whether the user opted in; the command and the embed command are the stored ones, each `""` when none is stored |
| Donations.CheckCC | donations/donations.py:252-292 | past the gates, a message starting with the prefix whose lower-cased rest is the author's command sends its text; failing that, the author's embed name sends the embed with each non-empty part set; otherwise nothing |
| Donations.CheckCCAsWritten | donations/donations.py:253-292 | as written: a message failing the gates gets no reply; text is sent exactly when the gates pass and the lower-cased message less `len(prefix)` characters is the author's command; an embed exactly when they pass, no text is sent and it is the author's embed command; each reply carries the stored text or embed |
| Donations.RmCustomCommandKeepsCommand | donations/donations.py:372-376 | for a stored command the removal raises and the command stays as written, and is gone as intended |
| Donations.UnprefixedMessageRunsCommand | donations/donations.py:260-277 | with prefix "!" the message "xhi" runs the custom command "hi" as written and nothing as intended |
| GrantRole.CanAssign | grantrole/grantrole.py:211-220 | the guild owner always may; anyone else iff neither the author's top role nor the bot's is below the role |
| GrantRole.RoleFor | grantrole/grantrole.py:187 | a role exactly when the message and emoji are both mapped, and then the mapped one |
| GrantRole.ReactionAdd | grantrole/grantrole.py:186-190 | adding a reaction grants the role stored under the message id and the emoji's id, if any |
| GrantRole.ReactionRemoveAsWritten | grantrole/grantrole.py:203-207 | as written removing a reaction looks up the role under the emoji's name |
| GrantRole.ReactionRemove | grantrole/grantrole.py:203-207 | removing a reaction takes back the role that adding it granted, under the same lookup by emoji id |
| GrantRole.RemoveReactionMissesMapping | grantrole/grantrole.py:186-207 | for a custom emoji mapped by id, adding the reaction grants the role, while removing it as written finds nothing because the lookup uses the emoji's name; as intended the role is found |
| GrantRole.JoinGrantsExisting | grantrole/grantrole.py:165-176 | every role granted on join is stored, still exists and is grantable; with nothing refused, every stored existing role is granted |
| GrantRole.JoinGrants | grantrole/grantrole.py:169-176 | never more grants than stored join roles |
| GrantRole.GuildRoles.constructor | grantrole/grantrole.py:15 | no join roles and no reaction mappings |
| GrantRole.GuildRoles.OnJoinAdd | grantrole/grantrole.py:38-48 | refused when not assignable or already listed, and then nothing changes; otherwise the role is appended |
| GrantRole.GuildRoles.OnJoinRemove | grantrole/grantrole.py:50-58 | refused when not listed; otherwise removed; either way not listed afterwards |
| GrantRole.GuildRoles.OnReactAdd | grantrole/grantrole.py:72-88 | an emoji the converter rejects raises (the fallback names an unimported module); a role the author may not assign is refused; otherwise (message, emoji id) maps to the role, creating the message's map, and looks it up afterwards |
| GrantRole.GuildRoles.OnReactRemove | grantrole/grantrole.py:90-105 | a rejected emoji raises; an unmapped pair (a missing, empty or zero entry) is refused; otherwise only that entry is deleted and the pair no longer maps |
| GrantRole.GuildRoles.OnMemberJoin | grantrole/grantrole.py:165-176 | the roles granted are exactly the stored ones that still exist, in order, until one the bot may not grant stops the loop |
| Memes.GuildMemes.constructor | memes/memes.py:14-20 | no memes |
| Memes.GuildMemes.AddMeme | memes/memes.py:37-56 | a lower-cased name that is a standard command or an existing meme is refused and nothing changes; otherwise the meme is stored under it |
| Memes.GuildMemes.EditMeme | memes/memes.py:61-73 | only an existing meme's text changes; the set of names never does |
| Memes.GuildMemes.DelMeme | memes/memes.py:78-89 | only an existing meme is deleted, and only that name |
| Memes.MemesSettings.constructor | memes/memes.py:186-190 | no guild has a meme role |
| Memes.MemesSettings.GetPrivileged | memes/memes.py:201-203 | the guild's meme role exactly when one was set |
| Memes.MemesSettings.SetPrivileged | memes/memes.py:205-208 | the guild's meme role becomes the one given and every other guild keeps its own |
| Memes.FirstPrefix | memes/memes.py:144-148 | a prefix found is one of the bot's prefixes that starts the content; none iff no prefix does |
| Memes.GetPrefix | memes/memes.py:144-148 | the loop returns the first prefix the content starts with |
| Memes.CloseFrom | memes/memes.py:151 | the first `}` at or after the position, or none iff there is none |
| Memes.ContainsSuffix | memes/memes.py:151 | text found in a suffix is found in the whole |
| Memes.PlaceholdersSound | memes/memes.py:151 | every placeholder `re.findall` yields is non-empty, holds no `}` and occurs braced in the text |
| Memes.Placeholders | memes/memes.py:151 | each placeholder takes at least three characters (its braces and one more), so there are at most a third as many as characters |
| Memes.ReplaceAllSelf | memes/memes.py:154 | replacing a placeholder by itself leaves the text unchanged |
| Memes.ReplaceAllAbsent | memes/memes.py:154 | replacing text that does not occur leaves the text unchanged |
| Memes.ReplaceAll | memes/memes.py:154 | replacing by a text of the same length keeps the length |
| Memes.DotIndex | memes/memes.py:175 | the position of the first dot |
| Memes.TransformParameter | memes/memes.py:157-182 | an object name becomes its text; a name with exactly one dot, a known object and a public attribute becomes that attribute's text; everything else stays braced |
| Memes.UnknownParameterKept | memes/memes.py:172-181 | an unknown name is left braced as it is: one without a dot, `foo.bar` with an unknown `foo`, or one whose attribute is private |
| Memes.ReplaceEachKept | memes/memes.py:150-155 | when every placeholder stays braced, formatting leaves the meme text as it is |
| Memes.FormatCC | memes/memes.py:150-155 | the loop replaces each found placeholder, in order, by its transformed text |
| Memes.MemeKey | memes/memes.py:134-141 | the exact text names the meme when it is one; otherwise its lower-cased form when that is one; otherwise none |
| Memes.CheckCCAsWritten | memes/memes.py:115-133 | a message failing the gates is ignored; one past them raises, since `ctx` is not defined in the listener |
| Memes.CheckCC | memes/memes.py:115-142 | a message failing the gates is ignored; otherwise the text after the prefix names a meme (exactly, else lower-cased) whose formatted text is sent, or nothing |
| Memes.MemeNeverSent | memes/memes.py:115-142 | the meme "hi" called as "!hi" raises as written and is answered with "hello" as intended |
| Stickers.AddName | stickers/stickers.py:56-59 | without a link the second argument is the link; with one, the name is the first two arguments joined by a space |
| Stickers.FirstWord | stickers/stickers.py:64 | `split(" ")[0]`: a space-free prefix of the text, stopped by a space when shorter |
| Stickers.SpaceAtOrBefore | stickers/stickers.py:96 | the last space at positions 1..p, or none iff there is none |
| Stickers.PackSplit | stickers/stickers.py:96-98 | `fullmatch('(.+) (.+)')`: no match iff the name has a newline or no inner space; a match splits the name at its last inner space into a non-empty group and a space-free item |
| Stickers.PlainMembers | stickers/stickers.py:95-100 | a name is listed plainly iff it is stored and does not split into a pack |
| Stickers.PackMembers | stickers/stickers.py:95-98 | an item is listed under a pack iff "pack item" is stored and splits that way |
| Stickers.PackNamesKeys | stickers/stickers.py:92-98 | the pack names are exactly the keys of the pack map, each once |
| Stickers.SortedPacks | stickers/stickers.py:107-111 | one pack per name, in the given order, with its items sorted |
| Stickers.ListingOf | stickers/stickers.py:102-111 | the plain names sorted (a permutation of them), then every pack by sorted name with its items sorted |
| Stickers.Request | stickers/stickers.py:117-130 | a sticker is posted iff the message starts with the prefix and the rest, stripped and lower-cased, names one; the post shows its link and "<message> posted by <author>" |
| Stickers.RequestIgnoresCase | stickers/stickers.py:124-128 | a sticker is found under its name typed in any letter case |
| Stickers.StickerStore.constructor | stickers/stickers.py:26 | no stickers |
| Stickers.StickerStore.Add | stickers/stickers.py:49-69 | more than one space, or a first word that is a standard command, is refused and nothing changes; otherwise the lower-cased name maps to the link, a new name going last in key order |
| Stickers.StickerStore.Delete | stickers/stickers.py:71-82 | succeeds iff the lower-cased, stripped name is stored, and then removes only it |
| Stickers.StickerStore.Group | stickers/stickers.py:92-100 | the loop yields exactly the plain names, the pack names and the pack items of the stored names in key order |
| Stickers.StickerStore.ListStickers | stickers/stickers.py:84-111 | nothing to list iff there are no stickers; otherwise the sorted listing of the stored names |
| FancySay.SpellConcat | fancysay/fancysay.py:82-89 | spelling a text piece by piece is spelling the whole text |
| FancySay.SpellEmpty | fancysay/fancysay.py:82-92 | nothing is sent exactly when the text has no letter and no whitespace |
| FancySay.EmojiSay | fancysay/fancysay.py:74-92 | in a guild, a member who cannot manage messages is told to use DMs; otherwise the loop's text (a letter as its emoji and a space, a space as two, other whitespace kept, the rest dropped) is sent when non-empty |
| FancySay.Options | fancysay/fancysay.py:98-102 | a character's emotes are its letter emoji first, then its extra ones |
| FancySay.KeepLowerAlnum | fancysay/fancysay.py:115 | `re.sub('[^a-z0-9]', '')`: no longer than the input, and only lower-case letters and digits |
| FancySay.KeepLowerAlnumFixed | fancysay/fancysay.py:115 | text that is already lower-case letters and digits is kept whole |
| FancySay.Sanitize | fancysay/fancysay.py:115 | the lower-cased text reduced to lower-case letters and digits, no longer than it |
| FancySay.CountAppend | fancysay/fancysay.py:122 | `count` over a concatenation is the sum of the counts |
| FancySay.Choice | fancysay/fancysay.py:129-133 | the option the i-th reaction uses is below the number of occurrences of its character |
| FancySay.Tabulate | fancysay/fancysay.py:130-133 | one value per position |
| FancySay.TabulateAt | fancysay/fancysay.py:130-133 | position i holds the i-th value |
| FancySay.EmotesUpTo | fancysay/fancysay.py:130-133 | one reaction per character so far |
| FancySay.Emotes | fancysay/fancysay.py:130-133 | one reaction per character of the text |
| FancySay.EmotesAt | fancysay/fancysay.py:131 | the i-th reaction is the option of its character numbered by how often that character came before |
| FancySay.ChoicesIncrease | fancysay/fancysay.py:129-133 | a later occurrence of a character uses a later option than an earlier one |
| FancySay.RepeatsGetDistinctEmotes | fancysay/fancysay.py:121-133 | when a character's options are distinct, its repeated occurrences get different reactions |
| FancySay.ReactText | fancysay/fancysay.py:104-110 | no text (unpacking raises) iff the argument has no words |
| FancySay.EmojiReact | fancysay/fancysay.py:94-133 | no words is an error; otherwise the sanitised text is refused when the message would pass 20 reactions, refused when a character occurs more often than it has emotes, and else reacted with one emote per character |
| FancySay.CheckFeasible | fancysay/fancysay.py:121-124 | the loop accepts iff every character occurs no more often than it has emotes |
| FancySay.ChooseEmotes | fancysay/fancysay.py:129-133 | the loop adds exactly the reactions `Emotes` describes |
| FancySay.Field | fancysay/fancysay.py:155-162 | a field is set iff its argument is non-empty, and then to it |
| FancySay.Tdif | fancysay/fancysay.py:140-162 | each of title, description, image and footer is set exactly when non-empty |
| FancySay.Yell | fancysay/fancysay.py:193-196 | the upper-cased message without trailing `,.!?` and with six `!` after it: it ends in "!!!!!!", keeps at most the message's length before that, the character before the `!`s is not one of `,.!?`, and every upper-cased character cut from the end is one of them |
| FancySay.RStripTrailing | fancysay/fancysay.py:196 | stripping trailing characters from a set removes any appended run of them |
| FancySay.YellIdempotent | fancysay/fancysay.py:196 | yelling yelled text changes nothing |
| OnlinePlot.IndexOf | onlineplot/onlineplot.py:20-28 | the position of a weekday name, the first one holding it, or none iff it is not a name |
| OnlinePlot.ChooseDay | onlineplot/onlineplot.py:170-179 | no argument is today as `isoweekday() % 7` (Sunday 0); a name, lower-cased, that is a weekday selects its number; any other name is refused with the list of weekdays |
| OnlinePlot.NamedDayIsToday | onlineplot/onlineplot.py:170-179 | naming today's weekday selects the same day as giving no argument |
| OnlinePlot.RecordTimeIndex | onlineplot/onlineplot.py:253-254 | the ten-minute slot of a UTC time: below 144, and the time of day lies within it |
| OnlinePlot.LocalMinutes | onlineplot/onlineplot.py:245 | a slot's start shifted by the UTC offset, with Python's floor division, is a time of day congruent to it modulo 1440 |
| OnlinePlot.LocalMinutesUtc | onlineplot/onlineplot.py:245-254 | at offset 0 a recorded slot maps back to its own start |
| OnlinePlot.PointOf | onlineplot/onlineplot.py:245-247 | a row becomes a point whose hour and minute are the local time of its slot |
| OnlinePlot.TimeLeTotalPreorder | onlineplot/onlineplot.py:248 | ordering points by time of day is a total preorder |
| OnlinePlot.FetchGuildData | onlineplot/onlineplot.py:243-248 | the points are sorted by time of day and are a permutation of the rows' points |
| OnlinePlot.CountsSum | onlineplot/onlineplot.py:272-286 | when every status is known, the four counts add up to the number of members |
| OnlinePlot.OnlineStats | onlineplot/onlineplot.py:270-286 | an unknown status raises iff some member has one; otherwise each counter is the number of members with that status, and they sum to the members |
| OnlinePlot.Digits2 | onlineplot/onlineplot.py:292 | two decimal digits whose value is the number |
| OnlinePlot.SignedPad4 | onlineplot/onlineplot.py:292 | `{:+05}`: a sign ('-' iff negative), then the magnitude's hundreds and remainder as two digits each |
| OnlinePlot.HhMm | onlineplot/onlineplot.py:292 | the `%z` number hhmm splits back into its hours and minutes |
| OnlinePlot.TzStr | onlineplot/onlineplot.py:288-292 | a `±hh:mm` string whose sign is the opposite of the offset's ('-' iff the offset is positive), with the offset's hours and minutes |
| OnlinePlot.CountSnoc | onlineplot/onlineplot.py:274-282 | one more member adds one to the count of its own status and nothing to the others |
| RepoInfo.ShortenLine | repoinfo/repoinfo.py:72-75 | a line under 70 characters is kept; a longer one becomes its first 67 characters and "...", exactly 70 |
| RepoInfo.ShortenLineIdempotent | repoinfo/repoinfo.py:72-75 | shortening a shortened line changes nothing |
| RepoInfo.EmbedTitle | repoinfo/repoinfo.py:67-70 | `**__name:__**`, or `**__No Category:__**` for a cog without a name |
| RepoInfo.PlainTitle | repoinfo/repoinfo.py:113 | `name:`, or `No Category:` for a cog without a name |
| RepoInfo.ShortLines | repoinfo/repoinfo.py:77-81 | one line per command, in name order, each at most 70 characters |
| RepoInfo.PageFieldsAsWritten | repoinfo/repoinfo.py:83-87 | as written page i's title is the cog title followed by i copies of " (continued)" |
| RepoInfo.PageFields | repoinfo/repoinfo.py:83-87 | one field per page; the first carries the title, every later one the title with " (continued)" once |
| RepoInfo.ContinuedTitlesPileUp | repoinfo/repoinfo.py:83-87 | with three pages the third title says " (continued)" twice as written and once as intended |
| RepoInfo.TrimDoc | repoinfo/repoinfo.py:103-108 | a description within `80 - max_width` is kept; a longer one is cut with Python's slice to `80 - max_width - 3` followed by "...", within the limit whenever that is at least 3 |
| RepoInfo.WideNameLengthensDoc | repoinfo/repoinfo.py:103-108 | with a name 79 columns wide, "abc" is trimmed to "a...", longer than the one column left |
| RepoInfo.MaxWidth | repoinfo/repoinfo.py:98-100 | none (`max` raises) iff there are no names; otherwise the largest display width among them, attained by one |
| RepoInfo.WidthMaker | repoinfo/repoinfo.py:102-109 | one row per command, in order, with its trimmed description and padding width `max_width - (display width - length)`; descriptions within the limit when it is at least 3 |
| RepoInfo.PadRight | repoinfo/repoinfo.py:117 | `f"{s:<{w}}"`: the text followed by spaces up to `w` characters, never cut |
| DevUtils.DropUnderscores | devutils/devutils.py:64-68 | the text without underscores: unchanged when it has none, and every character kept comes from it |
| DevUtils.PyInt | devutils/devutils.py:64-68 | Python's `int()` on unsigned text with surrounding whitespace ignored: a non-empty run of digits always converts, and anything that converts holds a digit |
| DevUtils.PyIntTrailingSpace | devutils/devutils.py:64-68 | whitespace after the digits is ignored, so `int("5 ")` is 5 |
| DevUtils.SpacedSecondsAccepted | devutils/devutils.py:58-68 | "5 s" passes the guard and is five seconds as written; as intended it is an invalid time |
| DevUtils.PyIntDigits | devutils/devutils.py:64-68 | `int()` of a run of digits is its decimal value |
| DevUtils.ParseTimeAsWritten | devutils/devutils.py:59-68 | as written only a leading non-digit is an invalid time, and a text that fully matches always converts |
| DevUtils.ParseTime | devutils/devutils.py:59-68 | as intended the time never raises; it is accepted iff it is digits with at most one `s` or `m` after them, and then means what the code computes |
| DevUtils.ParseSuffixed | devutils/devutils.py:63-66 | digits followed by `s` are that many seconds, followed by `m` sixty times as many |
| DevUtils.ParseBare | devutils/devutils.py:67-68 | bare digits are that many seconds |
| DevUtils.ParseTimeUnits | devutils/devutils.py:56-68 | `Ns` is N seconds, `Nm` is 60·N seconds, and a bare `N` is N seconds |
| DevUtils.HoursSuffixRaises | devutils/devutils.py:59-68 | "5h" passes the guard and makes `int()` raise as written, and is an invalid time as intended |
| DevUtils.ResolveFrom | devutils/devutils.py:77-81 | the loop extends the words so far by leading words of the rest, each step naming a command, and stops at the first word that does not |
| DevUtils.Resolved | devutils/devutils.py:77-81 | the longest run of leading words each of whose prefixes names a command |
| DevUtils.ResolveCommand | devutils/devutils.py:77-81 | the loop computes exactly `Resolved` |
| DevUtils.DelayCommand | devutils/devutils.py:52-94 | with the intended time check (as written, "5h" raises in `int()`): an invalid time is refused, one over 15 minutes refused; the prefix is stripped; a command that does not resolve is refused; otherwise it is scheduled after that time, with a notice when the author may not run it, as the prefix followed by the command |
| DevUtils.Passing | devutils/devutils.py:40-43 | the replacement `send` lets through no more messages than it is given |
| DevUtils.PassingMembers | devutils/devutils.py:40-43 | a message gets through iff it was sent and does not contain "Reloaded " |
| DevUtils.Rlthen | devutils/devutils.py:29-50 | an unknown command gets "Invalid Command: " and the full command text and no rerun; a known one lets through the reload's messages without "Reloaded " and reruns the full command |
| DevUtils.FakeSend | devutils/devutils.py:40-45 | the wrapped `send` applied to the reload's messages in turn sends exactly `Passing` of them |
| DevUtils.BeforeFirst | devutils/devutils.py:111 | `split(sep)[0]`: a prefix of the text, the whole text when the separator does not occur; otherwise the text up to the first separator, which holds none |
| DevUtils.PipUpdate | devutils/devutils.py:96-119 | the whole reply sequence: without a pip version warning (or with one and updating pip not allowed) no error output is a tick and other output is sent by DM with a notice in the channel; with the warning and pip updates allowed, the text before the warning is reported with "Updating pip...", pip is updated once (replying in the same way), and a tick follows; it never recurses further |
| TrUtils.Freload | trutils/trutils.py:27-48 | an unknown command is refused with its full text; a known one sends only reload messages without "Reloaded " and reruns the full command |
| TrUtils.DelayCommand | trutils/trutils.py:50-89 | with the intended time check, as in DevUtils, except that the command is resolved as given, without removing the prefix, and is re-sent as the prefix followed by it |
| TrUtils.SamePlainCommand | trutils/trutils.py:50-89 | on a command that does not start with the prefix both copies of `delaycommand` behave the same |
| TrUtils.PrefixedCommandDiffers | trutils/trutils.py:50-89 | `delaycommand 5s !ping` with prefix "!" is scheduled by the DevUtils copy and refused by this one |
| TrUtils.DevPing | devutils/devutils.py:74-94 | the DevUtils copy strips the prefix and schedules a known one-word command |
| TrUtils.TrPing | trutils/trutils.py:50-89 | this copy looks up the prefixed word as it stands and refuses it when no command has that name |
| TrUtils.FiveSeconds | trutils/trutils.py:57-66 | "5s" is five seconds |
| TrUtils.ResolveOne | trutils/trutils.py:72-78 | a single word resolves to itself iff it names a command, else to nothing |
| TrUtils.SplitOneWord | trutils/trutils.py:73 | a word without whitespace splits into itself |
| TrUtils.WordLengthWhole | trutils/trutils.py:73 | the first word of a text without whitespace is the whole text |
| TrUtils.PipUpdateDefault | trutils/trutils.py:91-114 | without arguments the bot's own package is updated, with exactly the replies `pipupdate` would give: a tick, the DM error and notice, or the pip update sequence |

## Left out

- Discord itself (messages, reactions, members, roles, channels, embeds as sent, DMs) is outside the model: the model returns what would be sent or changed.
- Persistence (`save_settings`, the JSON files) and the `red_get_data_for_user`/`red_delete_data_for_user` hooks are left out: each method's new state is what would be saved. This includes automod's `red_get_data_for_user`, which iterates the unregistered `phrases` setting (automod/automod.py:118) and so raises like the phrase command.
- Concurrency is left out: `asyncio.sleep`, the background loops' ticks and typing indicators are not modelled, and a tick is one call.
- Python's `lower`, `upper`, `strip`, `isspace` and `isalpha` are modelled on ASCII only, since Unicode case, space and letter tables are external. FancySay's letter test (fancysay/fancysay.py:84) is therefore ASCII letters only.
- `int()` is modelled on unsigned digit strings with underscores and surrounding ASCII whitespace. A sign is not modelled: every text the model passes to `int()` starts with a digit.
- Server, user, channel and message ids are one integer type. The str/int key stringification of the JSON settings is not modelled, except in the bad-user opted-in list, where it is the whole behaviour. The bad-user `rmban` looking up a string key is therefore not modelled.
- Regular expressions other than the few trivial ones are an oracle, since the regex engine is external.
- The pip subprocess, `get_command` and cog reloading are external: their results are parameters.
- fancysay `pingrole`, `say`, `testsay`, `mask` and `emojify` are left out, since they only forward text to Discord.
- Memes list display, stickers message layout and pagination, and repoinfo repository lookup, pagination and sending are left out, since they are presentation over Discord.
- onlineplot's SQL, plotting, background loops, `optin`/`optout` and `make_graph` are left out, since they are database and matplotlib work.
- devutils `relast` is left out, since it reruns the last message through Discord's history.
- MenuListener.CascadeStep: assumes the foreign `menu_2.transition` (menulistener/menulistener.py:179) leaves the state dict it is handed as it was. The next pass continues with `merged`, the child's state before the transition, whereas the source continues with that same dict (line 182) and so would see any change the transition makes to it. The same holds for `Registry.RespondWithChild`, which follows `CascadeStep`.
- MenuListener.CascadeStep: does not model the ValueError of `int(menu_1_ims['child_message_id'])` (menulistener/menulistener.py:175) on a non-numeric id. The raw id goes to the `fetchChild` oracle, so such an id can only end the cascade as a missing child, where the source lets the error escape.
- automod is partly left out: `mod_message` applying the include/exclude rules and `deleteAndReport` are Discord actions, and neither the watchdog channel command nor `patternsToTableText` (table layout) is modelled.
- AutoMod.AutoModGuild.AddPattern: promises the use-count accounting (`Valid()`) afterwards only for a new or unused name. `addpattern` stores `uses` 0 even for a pattern some list holds (automod/automod.py:183-196), so re-adding a listed pattern breaks that accounting.
- baduser is partly left out:
  - `get_user_data`'s KeyError, raised for a server whose entry has no `badusers` dict (baduser/baduser.py:683), is modelled as None.
  - The messaging in `record_bad_user` and `record_role_change`, and `log_message`, are left out.
  - `mod_ban`, `mod_user_left` and `mod_user_join` are Discord event plumbing and are left out.
- donations is partly left out: the `info` display, the insult randomness and roll, the insult and perk toggling commands, and `is_donor` (a flag parameter) are not modelled.
- todo list display, grantrole `onreact list`/`serverlist`/`catchup`, and globaladmin `perm_list`/`listusers` display are left out, since they are presentation.
- grantrole's unicode-emoji path uses `emoji_module`, which is never imported, and its `on_member_join` exception handler refers to an undefined `guild`. Both raise as written and are modelled only as failure, not corrected.
- trutils' missing `BytesIO` import only affects output files and is left out.
- donations `info` printing `len(cmds)` for embeds is presentation and is left out.

## Findings

| source | as written | input that shows it | evidently intended | confidence | as-written member | corrected member |
|---|---|---|---|---|---|---|
| timecog/timecog.py:154-160 | `hour += 12` for pm when the hour is at most 12 | "12:30 pm" | 12 pm is noon: add 12 only for hours 1 to 11 | not executed | TimeCog.NoonPmBecomesMidnight | TimeCog.NormalizeHour |
| timecog/timecog.py:613-619 | the exact-time parser compares the meridiem with 'pm' case-sensitively | "4 PM" | the meridiem is case-insensitive, as in the reminder parser | not executed | TimeCog.ExactIgnoresUpperPm | TimeCog.NormalizeHour |
| timecog/timecog.py:506-512 | the reminder loop indexes the live list with the snapshot's index after removing a one-shot, so it advances the wrong reminder, runs past the end (IndexError) or cannot remove a one-shot it has just shifted (ValueError, TimeCog.TickValueError) | a due one-shot followed by a due repeater | each due reminder is delivered, and only repeaters are advanced and kept | not executed | TimeCog.TickIndexShift | TimeCog.ReminderList.Tick |
| automod/automod.py:551-631 | `watchdog phrase` and its listener use the setting `phrases`, but the cog registers `watchdog_phrases` (line 95), so the command raises TypeError and the listener AttributeError | `watchdog phrase spam 600 buy`, then the message "buy now" | a phrase set up with the command is reported when it matches | not executed | AutoMod.PhraseNeverReported | AutoMod.Watchdog.SetPhrase |
| automod/automod.py:216-228 | `addwhitelist`/`addblacklist` refuse a pattern that is defined | adding a defined pattern name | refuse only an undefined pattern | not executed | AutoMod.AutoModGuild.AddToListAsWritten | AutoMod.AutoModGuild.AddToList |
| baduser/baduser.py:666-673 | opting out looks for `str(gid)` where opting in stored `gid` as a number | opt in, then opt out, on one server | opting out undoes opting in | not executed | BadUser.OptOutAsWrittenKeepsServer | BadUser.OptOut |
| baduser/baduser.py:168-169 | operator precedence makes the privacy reply the bare word "public" | toggling privacy to public | the reply says the new policy in full | not executed | BadUser.PrivacyReplyDropsPrefix | BadUser.PrivacyReply |
| todo/todo.py:67-75 | `purge` calls `tsutils.confirm_message`, but `tsutils` is never imported (lines 1-5), so the command raises NameError | `todo purge` on a list with one item | once confirmed, the focused list is emptied | not executed | Todo.PurgeNeverClears | Todo.TodoUser.Purge |
| donations/donations.py:372-376 | the settings method `rmCustomCommand` calls `remove` on a dict; no command calls it (`clearUserData` uses `del`), so the bug is latent | removing a stored command | the command is deleted | not executed | Donations.RmCustomCommandKeepsCommand | Donations.DonationsSettings.RmCustomCommand |
| donations/donations.py:391-395 | the settings method `rmCustomEmbed` calls `remove` on a dict; no command calls it, so the bug is latent | removing a stored embed | the embed is deleted | not executed | Donations.DonationsSettings.RmCustomEmbedAsWritten | Donations.DonationsSettings.RmCustomEmbed |
| donations/donations.py:260-277 | the listener strips the prefix's length without checking the prefix | prefix "!", message "xhi" | only a prefixed message runs a custom command | not executed | Donations.UnprefixedMessageRunsCommand | Donations.CheckCC |
| grantrole/grantrole.py:186-207 | reaction remove looks the emoji up by name where reaction add used its id | removing a custom-emoji reaction mapped by id | removing the reaction takes back the role it granted | not executed | GrantRole.RemoveReactionMissesMapping | GrantRole.ReactionRemove |
| memes/memes.py:115-133 | the listener refers to an undefined `ctx` | a message "!hi" for the meme "hi" | the meme's text is sent | not executed | Memes.MemeNeverSent | Memes.CheckCC |
| repoinfo/repoinfo.py:83-87 | the field title is extended on every page, so " (continued)" piles up | a cog listing of three pages | every page after the first says " (continued)" once | not executed | RepoInfo.ContinuedTitlesPileUp | RepoInfo.PageFields |
| devutils/devutils.py:59-68 | `re.match` is not anchored at the end, so `int()` then raises on the unit (trutils/trutils.py:57-66 is the same) | "5h" | a time with an unknown unit is refused as an invalid time | not executed | DevUtils.HoursSuffixRaises | DevUtils.ParseTime |
