/**
 * Saying things fancily: spelling text out in emoji, reacting to a
 * message with letter emoji, building an embed from optional fields, and
 * yelling. The letter-to-emoji table and the server emoji substitution
 * are external and arrive as a parameter or are left out.
 */
module FancySay {
  import opened Common

  // --------------------------------------------------------------- emoji

  /** What `emoji` writes for one character. */
  function Piece(c: char, toEmoji: char -> string): string {
    if IsAsciiLetter(c) then toEmoji(c) + " "
    else if c == ' ' then "  "
    else if IsSpace(c) then [c]
    else ""
  }

  /** The whole text `emoji` builds, character by character. */
  function Spell(text: string, toEmoji: char -> string): string
  {
    if |text| == 0 then "" else Spell(text[..|text| - 1], toEmoji) + Piece(text[|text| - 1], toEmoji)
  }

  /** Spelling distributes over concatenation. */
  lemma {:induction false} SpellConcat(a: string, b: string, toEmoji: char -> string)
    ensures Spell(a + b, toEmoji) == Spell(a, toEmoji) + Spell(b, toEmoji)
    decreases |b|
  {
    if |b| > 0 {
      var b' := b[..|b| - 1];
      assert (a + b)[..|a + b| - 1] == a + b';
      assert (a + b)[|a + b| - 1] == b[|b| - 1];
      SpellConcat(a, b', toEmoji);
    } else {
      assert a + b == a;
    }
  }

  /** Nothing is sent exactly when the text has no letter and no whitespace. */
  lemma {:induction false} SpellEmpty(text: string, toEmoji: char -> string)
    ensures Spell(text, toEmoji) == "" <==> forall i :: 0 <= i < |text| ==> !IsAsciiLetter(text[i]) && !IsSpace(text[i])
  {
    if |text| > 0 {
      var init := text[..|text| - 1];
      SpellEmpty(init, toEmoji);
      assert forall i :: 0 <= i < |init| ==> init[i] == text[i];
    }
  }

  datatype EmojiReply = DmOnly | NothingToSay | Say(text: string)

  /**
   * `fancysay emoji`: in a guild only for members who may manage messages;
   * spells letters as emoji followed by a space, a space as two spaces,
   * keeps other whitespace and drops the rest; sends only a non-empty text.
   */
  method EmojiSay(text: string, inGuild: bool, managesMessages: bool, toEmoji: char -> string) returns (r: EmojiReply)
    ensures inGuild && !managesMessages ==> r == DmOnly
    ensures !(inGuild && !managesMessages) ==>
      r == if Spell(text, toEmoji) == "" then NothingToSay else Say(Spell(text, toEmoji))
  {
    if inGuild && !managesMessages {
      return DmOnly;
    }
    var msg := "";
    var i := 0;
    while i < |text|
      invariant 0 <= i <= |text|
      invariant msg == Spell(text[..i], toEmoji)
      decreases |text| - i
    {
      assert text[..i + 1][..i] == text[..i];
      msg := msg + Piece(text[i], toEmoji);
      i := i + 1;
    }
    assert text[..|text|] == text;
    r := if |msg| > 0 then Say(msg) else NothingToSay;
  }

  // ---------------------------------------------------------- emojireact

  /** The negative squared capital letters offered besides `a`, `b` and `o`. */
  function Extra(c: char): seq<string> {
    if c == 'a' then ["\U{1F170}"]
    else if c == 'b' then ["\U{1F171}"]
    else if c == 'o' then ["\U{1F17E}"]
    else []
  }

  /** The emotes that can stand for `c`, in order of use. */
  function Options(c: char, toEmoji: char -> string): (r: seq<string>)
    ensures |r| == |Extra(c)| + 1 && r[0] == toEmoji(c)
  {
    [toEmoji(c)] + Extra(c)
  }

  /** `re.sub(r'[^a-z0-9]', '', s)`: the lower-case letters and digits of `s`, in order. */
  function KeepLowerAlnum(s: string): (r: string)
    ensures |r| <= |s|
    ensures forall i :: 0 <= i < |r| ==> IsLowerAlnum(r[i])
  {
    if |s| == 0 then ""
    else if IsLowerAlnum(s[0]) then [s[0]] + KeepLowerAlnum(s[1..])
    else KeepLowerAlnum(s[1..])
  }

  /** Text that is already lower-case letters and digits is kept whole, so sanitising twice changes nothing. */
  lemma {:induction false} KeepLowerAlnumFixed(s: string)
    requires forall i :: 0 <= i < |s| ==> IsLowerAlnum(s[i])
    ensures KeepLowerAlnum(s) == s
  {
    if |s| > 0 {
      assert forall i :: 0 <= i < |s[1..]| ==> s[1..][i] == s[i + 1];
      KeepLowerAlnumFixed(s[1..]);
    }
  }

  /** The lower-cased text reduced to `[a-z0-9]`. */
  function Sanitize(text: string): (r: string)
    ensures |r| <= |text| && forall i :: 0 <= i < |r| ==> IsLowerAlnum(r[i])
  {
    KeepLowerAlnum(Lower(text))
  }

  lemma {:induction false} CountAppend<T>(a: seq<T>, b: seq<T>, x: T)
    ensures Count(a + b, x) == Count(a, x) + Count(b, x)
  {
    if |a| > 0 {
      assert (a + b)[0] == a[0] && (a + b)[1..] == a[1..] + b;
      CountAppend(a[1..], b, x);
    } else {
      assert a + b == b;
    }
  }

  /** Whether every character occurs no more often than it has emotes. */
  predicate Feasible(text: string) {
    forall c :: c in text ==> Fits(text, c)
  }

  /** `c` occurs in `text` no more often than it has emotes. */
  predicate Fits(text: string, c: char) {
    Count(text, c) <= |Extra(c)| + 1
  }

  /** Earlier occurrences of `text[i]`: the option the i-th reaction uses. */
  function Choice(text: string, i: nat): (k: nat)
    requires i < |text|
    ensures k < Count(text, text[i])
  {
    CountAppend(text[..i], text[i..], text[i]);
    assert text == text[..i] + text[i..];
    assert text[i..][0] == text[i];
    Count(text[..i], text[i])
  }

  /**
   * The reaction for the i-th character: option `Choice(text, i)` of that
   * character (on feasible text that option always exists).
   */
  function Emote(text: string, i: nat, toEmoji: char -> string): string
    requires i < |text|
  {
    var opts := Options(text[i], toEmoji);
    var k := Choice(text, i);
    if k < |opts| then opts[k] else ""
  }

  /** `[f(0), ..., f(n - 1)]`, built from the front. */
  function Tabulate<T>(f: nat -> T, n: nat): (r: seq<T>)
    ensures |r| == n
  {
    if n == 0 then [] else Tabulate(f, n - 1) + [f(n - 1)]
  }

  lemma {:induction false} TabulateAt<T>(f: nat -> T, n: nat, i: nat)
    requires i < n
    ensures Tabulate(f, n)[i] == f(i)
  {
    if i < n - 1 {
      TabulateAt(f, n - 1, i);
    }
  }

  /** The reaction for each position of the text. */
  function EmoteOf(text: string, toEmoji: char -> string): nat -> string {
    (j: nat) => if j < |text| then Emote(text, j, toEmoji) else ""
  }

  /** The first `n` reactions `emojireact` adds, one per character. */
  function EmotesUpTo(text: string, n: nat, toEmoji: char -> string): (r: seq<string>)
    requires n <= |text|
    ensures |r| == n
  {
    Tabulate(EmoteOf(text, toEmoji), n)
  }

  /** All the reactions `emojireact` adds. */
  function Emotes(text: string, toEmoji: char -> string): (r: seq<string>)
    requires Feasible(text)
    ensures |r| == |text|
  {
    EmotesUpTo(text, |text|, toEmoji)
  }

  /** The i-th reaction is option `Choice(text, i)` of the i-th character. */
  lemma EmotesAt(text: string, toEmoji: char -> string, i: nat)
    requires Feasible(text) && i < |text|
    ensures Emotes(text, toEmoji)[i] == Options(text[i], toEmoji)[Choice(text, i)]
  {
    assert text[i] in text;
    TabulateAt(EmoteOf(text, toEmoji), |text|, i);
  }

  /** A later occurrence of a character uses a later option than an earlier one. */
  lemma ChoicesIncrease(text: string, i: nat, j: nat)
    requires i < j < |text| && text[i] == text[j]
    ensures Choice(text, i) < Choice(text, j)
  {
    assert text[..j] == text[..i] + text[i..j];
    CountAppend(text[..i], text[i..j], text[i]);
    assert text[i..j][0] == text[i];
  }

  /** When a character's options are distinct, its repeats get distinct emotes. */
  lemma RepeatsGetDistinctEmotes(text: string, toEmoji: char -> string, i: nat, j: nat)
    requires Feasible(text) && i < j < |text| && text[i] == text[j]
    requires NoDup(Options(text[i], toEmoji))
    ensures Emotes(text, toEmoji)[i] != Emotes(text, toEmoji)[j]
  {
    ChoicesIncrease(text, i, j);
    EmotesAt(text, toEmoji, i);
    EmotesAt(text, toEmoji, j);
  }

  /** The text argument: all words, or all but the last when the last names a message. */
  function ReactText(text: string, lastIsMessage: bool): (r: Option<string>)
    ensures r.None? <==> |SplitWords(text)| == 0
  {
    var words := SplitWords(text);
    if |words| == 0 then None
    else if lastIsMessage then Some(Join("", words[..|words| - 1]))
    else Some(Join("", words))
  }

  datatype ReactOutcome = NoWords | NoRoom | NotSpellable | Reacted(emotes: seq<string>)

  /**
   * `emojireact`: sanitises the text, refuses when the target message would
   * pass 20 reactions or a character occurs more often than it has emotes,
   * and otherwise reacts with the k-th option for the k-th occurrence.
   * `reactions` is the reaction count of the target message.
   */
  method EmojiReact(text: string, lastIsMessage: bool, reactions: nat, toEmoji: char -> string) returns (r: ReactOutcome)
    ensures ReactText(text, lastIsMessage).None? ==> r == NoWords
    ensures ReactText(text, lastIsMessage).Some? ==> (
      var t := Sanitize(ReactText(text, lastIsMessage).value);
      r == if reactions + |t| > 20 then NoRoom
           else if !Feasible(t) then NotSpellable
           else Reacted(Emotes(t, toEmoji)))
  {
    var chosen := ReactText(text, lastIsMessage);
    if chosen.None? {
      return NoWords;
    }
    var t := Sanitize(chosen.value);
    if reactions + |t| > 20 {
      return NoRoom;
    }
    var ok := CheckFeasible(t);
    if !ok {
      return NotSpellable;
    }
    var emotes := ChooseEmotes(t, toEmoji);
    r := Reacted(emotes);
  }

  /** The first loop of `emojireact`: is every character's count within its options? */
  method CheckFeasible(t: string) returns (ok: bool)
    ensures ok == Feasible(t)
  {
    var i := 0;
    while i < |t|
      invariant 0 <= i <= |t|
      invariant forall k :: 0 <= k < i ==> Fits(t, t[k])
      decreases |t| - i
    {
      if !Fits(t, t[i]) {
        InfeasibleAt(t, i);
        return false;
      }
      i := i + 1;
    }
    FeasibleByIndex(t);
    ok := true;
  }

  lemma InfeasibleAt(t: string, i: nat)
    requires i < |t| && !Fits(t, t[i])
    ensures !Feasible(t)
  {
    assert t[i] in t;
  }

  lemma FeasibleByIndex(t: string)
    requires forall k :: 0 <= k < |t| ==> Fits(t, t[k])
    ensures Feasible(t)
  {
    forall c | c in t ensures Fits(t, c) {
      var k :| 0 <= k < |t| && t[k] == c;
    }
  }

  /** The reaction loop of `emojireact`: option `used.count(c)` for each character `c`. */
  method ChooseEmotes(t: string, toEmoji: char -> string) returns (emotes: seq<string>)
    requires Feasible(t)
    ensures emotes == Emotes(t, toEmoji)
  {
    var used := "";
    emotes := [];
    var i := 0;
    while i < |t|
      invariant 0 <= i <= |t|
      invariant used == t[..i]
      invariant emotes == EmotesUpTo(t, i, toEmoji)
      decreases |t| - i
    {
      var c := t[i];
      assert Count(used, c) == Choice(t, i);
      var e := Options(c, toEmoji)[Count(used, c)];
      assert e == Emote(t, i, toEmoji) == EmoteOf(t, toEmoji)(i);
      emotes := emotes + [e];
      used := used + [c];
      assert used == t[..i + 1];
      i := i + 1;
    }
  }

  // ------------------------------------------------------------------ tdif

  datatype TdifEmbed = TdifEmbed(title: Option<string>, description: Option<string>, image: Option<string>, footer: Option<string>)

  function Field(s: string): (r: Option<string>)
    ensures r.None? <==> |s| == 0
    ensures r.Some? ==> r.value == s
  {
    if |s| > 0 then Some(s) else None
  }

  /** `title_description_image_footer`: each empty argument leaves its field unset. */
  function Tdif(title: string, description: string, image: string, footer: string): (e: TdifEmbed)
    ensures e.title == Field(title) && e.description == Field(description)
    ensures e.image == Field(image) && e.footer == Field(footer)
  {
    TdifEmbed(Field(title), Field(description), Field(image), Field(footer))
  }

  // ------------------------------------------------------------------ yell

  const YELL_STRIP: set<char> := {',', '.', '!', '?'}

  /** `yell`: upper-cased, trailing `,.!?` removed, six `!` appended. */
  function Yell(message: string): (r: string)
    ensures 6 <= |r| <= |message| + 6 && r[|r| - 6..] == "!!!!!!"
    ensures forall i :: 0 <= i < |r| - 6 ==> r[i] == UpperChar(message[i])
    ensures |r| > 6 ==> r[|r| - 7] !in YELL_STRIP
    ensures forall i :: |r| - 6 <= i < |message| ==> UpperChar(message[i]) in YELL_STRIP
  {
    var u := Upper(message);
    var k := RStripChars(u, YELL_STRIP);
    assert forall i :: |k| <= i < |message| ==> UpperChar(message[i]) in YELL_STRIP by {
      forall i | |k| <= i < |message| ensures UpperChar(message[i]) in YELL_STRIP {
        assert u[i] == UpperChar(message[i]) && u[i] in YELL_STRIP;
      }
    }
    k + "!!!!!!"
  }

  lemma {:induction false} RStripTrailing(s: string, t: string, cs: set<char>)
    requires forall i :: 0 <= i < |t| ==> t[i] in cs
    ensures RStripChars(s + t, cs) == RStripChars(s, cs)
    decreases |t|
  {
    if |t| > 0 {
      assert (s + t)[..|s + t| - 1] == s + t[..|t| - 1];
      RStripTrailing(s, t[..|t| - 1], cs);
    } else {
      assert s + t == s;
    }
  }

  /** Yelling yelled text changes nothing. */
  lemma YellIdempotent(message: string)
    ensures Yell(Yell(message)) == Yell(message)
  {
    var u := RStripChars(Upper(message), YELL_STRIP);
    var y := u + "!!!!!!";
    assert Upper(y) == y;
    RStripTrailing(u, "!!!!!!", YELL_STRIP);
    if |u| > 0 {
      assert RStripChars(u, YELL_STRIP) == u;
    }
  }
}
