/**
 * Custom memes: per-guild text commands that moderators add, edit and
 * delete, answered by a message listener after substituting `{…}`
 * placeholders with a few whitelisted objects.
 *
 * The bot's prefixes, its standard command names, the `str()` of the
 * message objects and attribute lookup on them arrive as parameters.
 */
module Memes {
  import opened Common

  // ------------------------------------------------------------ meme table

  datatype EditOutcome = StandardCommand | AlreadyExists | NoSuchMeme | Saved

  /** One guild's memes, keyed by lower-cased name. */
  class GuildMemes {
    var memes: map<string, string>

    constructor ()
      ensures memes == map[]
    {
      memes := map[];
    }

    /** `addmeme`: refuses a standard command name or an existing meme, otherwise stores it lower-cased. */
    method AddMeme(command: string, text: string, standard: set<string>) returns (o: EditOutcome)
      modifies this
      ensures Lower(command) in standard ==> o == StandardCommand && memes == old(memes)
      ensures Lower(command) !in standard && Lower(command) in old(memes) ==> o == AlreadyExists && memes == old(memes)
      ensures Lower(command) !in standard && Lower(command) !in old(memes) ==>
        o == Saved && memes == old(memes)[Lower(command) := text]
    {
      var c := Lower(command);
      if c in standard {
        return StandardCommand;
      }
      if c in memes {
        return AlreadyExists;
      }
      memes := memes[c := text];
      o := Saved;
    }

    /** `editmeme`: only an existing meme, and only its text. */
    method EditMeme(command: string, text: string) returns (o: EditOutcome)
      modifies this
      ensures Lower(command) !in old(memes) ==> o == NoSuchMeme && memes == old(memes)
      ensures Lower(command) in old(memes) ==> o == Saved && memes == old(memes)[Lower(command) := text]
      ensures memes.Keys == old(memes).Keys
    {
      var c := Lower(command);
      if c !in memes {
        return NoSuchMeme;
      }
      memes := memes[c := text];
      o := Saved;
    }

    /** `delmeme`: only an existing meme, and only that key. */
    method DelMeme(command: string) returns (o: EditOutcome)
      modifies this
      ensures Lower(command) !in old(memes) ==> o == NoSuchMeme && memes == old(memes)
      ensures Lower(command) in old(memes) ==> o == Saved && memes == old(memes) - {Lower(command)}
    {
      var c := Lower(command);
      if c !in memes {
        return NoSuchMeme;
      }
      memes := memes - {c};
      o := Saved;
    }
  }

  /** The meme role per guild. */
  class MemesSettings {
    var privileged: map<int, int>

    constructor ()
      ensures privileged == map[]
    {
      privileged := map[];
    }

    /** `getPrivileged`: the guild's meme role, if one was set. */
    function GetPrivileged(guild: int): (r: Option<int>)
      reads this
      ensures r.Some? <==> guild in privileged
      ensures r.Some? ==> r.value == privileged[guild]
    {
      if guild in privileged then Some(privileged[guild]) else None
    }

    /** `setPrivileged`: the guild's meme role becomes `role`; other guilds keep theirs. */
    method SetPrivileged(guild: int, role: int)
      modifies this
      ensures privileged == old(privileged)[guild := role]
      ensures GetPrivileged(guild) == Some(role)
      ensures forall g :: g != guild ==> GetPrivileged(g) == old(GetPrivileged(g))
    {
      privileged := privileged[guild := role];
    }
  }

  // --------------------------------------------------------------- prefix

  /** The first of the prefixes that the content starts with. */
  function FirstPrefix(content: string, prefixes: seq<string>): (r: Option<string>)
    ensures r.Some? ==> r.value in prefixes && StartsWith(content, r.value)
    ensures r.None? <==> forall p :: p in prefixes ==> !StartsWith(content, p)
  {
    if |prefixes| == 0 then None
    else if StartsWith(content, prefixes[0]) then Some(prefixes[0])
    else FirstPrefix(content, prefixes[1..])
  }

  /** `get_prefix` (None for its `False`). */
  method GetPrefix(content: string, prefixes: seq<string>) returns (r: Option<string>)
    ensures r == FirstPrefix(content, prefixes)
  {
    var i := 0;
    while i < |prefixes|
      invariant 0 <= i <= |prefixes|
      invariant FirstPrefix(content, prefixes) == FirstPrefix(content, prefixes[i..])
      decreases |prefixes| - i
    {
      assert prefixes[i..][1..] == prefixes[i + 1..];
      if StartsWith(content, prefixes[i]) {
        return Some(prefixes[i]);
      }
      i := i + 1;
    }
    r := None;
  }

  // --------------------------------------------------------- placeholders

  /** The index of the first `}` at or after `k`. */
  function CloseFrom(s: string, k: nat): (r: Option<nat>)
    requires k <= |s|
    ensures r.Some? ==> k <= r.value < |s| && s[r.value] == '}' && forall i :: k <= i < r.value ==> s[i] != '}'
    ensures r.None? ==> forall i :: k <= i < |s| ==> s[i] != '}'
    decreases |s| - k
  {
    if k == |s| then None
    else if s[k] == '}' then Some(k)
    else CloseFrom(s, k + 1)
  }

  /**
   * `re.findall(r"\{([^}]+)\}", s)`: scanning left to right, a `{`
   * followed by at least one character other than `}` and then a `}`
   * yields the text between; the scan resumes after the `}`.
   */
  function Placeholders(s: string): (r: seq<string>)
    ensures 3 * |r| <= |s|
    decreases |s|
  {
    if |s| == 0 then []
    else if s[0] == '{' then
      var j := CloseFrom(s, 1);
      if j.Some? && j.value > 1 then [s[1..j.value]] + Placeholders(s[j.value + 1..])
      else Placeholders(s[1..])
    else Placeholders(s[1..])
  }

  lemma ContainsSuffix(s: string, k: nat, sub: string)
    requires k <= |s| && Contains(s[k..], sub)
    ensures Contains(s, sub)
    decreases k
  {
    if k > 0 {
      assert s[1..][k - 1..] == s[k..];
      ContainsSuffix(s[1..], k - 1, sub);
    }
  }

  /** Every placeholder found is non-empty, holds no `}` and occurs braced in the text. */
  lemma {:induction false} PlaceholdersSound(s: string)
    ensures forall r :: r in Placeholders(s) ==> |r| > 0 && '}' !in r && Contains(s, "{" + r + "}")
    decreases |s|
  {
    if |s| > 0 {
      PlaceholdersSound(s[1..]);
      forall r | r in Placeholders(s[1..])
        ensures Contains(s, "{" + r + "}")
      {
        ContainsSuffix(s, 1, "{" + r + "}");
      }
      if s[0] == '{' {
        var j := CloseFrom(s, 1);
        if j.Some? && j.value > 1 {
          var t := s[j.value + 1..];
          PlaceholdersSound(t);
          forall r | r in Placeholders(t)
            ensures Contains(s, "{" + r + "}")
          {
            ContainsSuffix(s, j.value + 1, "{" + r + "}");
          }
          var r0 := s[1..j.value];
          assert s[..|"{" + r0 + "}"|] == "{" + r0 + "}";
          assert '}' !in r0 by {
            forall i | 0 <= i < |r0| ensures r0[i] != '}' {
              assert r0[i] == s[1 + i];
            }
          }
        }
      }
    }
  }

  /** `str.replace(pat, rep)`: every non-overlapping occurrence, left to right. */
  function ReplaceAll(s: string, pat: string, rep: string): (r: string)
    requires |pat| > 0
    ensures |rep| == |pat| ==> |r| == |s|
    decreases |s|
  {
    if |s| < |pat| then s
    else if s[..|pat|] == pat then rep + ReplaceAll(s[|pat|..], pat, rep)
    else [s[0]] + ReplaceAll(s[1..], pat, rep)
  }

  /** Replacing a text by itself changes nothing. */
  lemma {:induction false} ReplaceAllSelf(s: string, pat: string)
    requires |pat| > 0
    ensures ReplaceAll(s, pat, pat) == s
    decreases |s|
  {
    if |s| >= |pat| {
      if s[..|pat|] == pat {
        ReplaceAllSelf(s[|pat|..], pat);
        assert s == s[..|pat|] + s[|pat|..];
      } else {
        ReplaceAllSelf(s[1..], pat);
        assert s == [s[0]] + s[1..];
      }
    }
  }

  /** Replacing a text that does not occur changes nothing. */
  lemma {:induction false} ReplaceAllAbsent(s: string, pat: string, rep: string)
    requires |pat| > 0 && !Contains(s, pat)
    ensures ReplaceAll(s, pat, rep) == s
    decreases |s|
  {
    if |s| >= |pat| {
      assert s[..|pat|] != pat;
      ReplaceAllAbsent(s[1..], pat, rep);
      assert s == [s[0]] + s[1..];
    }
  }

  // ------------------------------------------------------------ parameters

  /** `str()` of the message objects a meme may mention. */
  datatype Objects = Objects(message: string, author: string, channel: string, server: string)

  function ObjectStr(objs: Objects, name: string): Option<string> {
    if name == "message" then Some(objs.message)
    else if name == "author" then Some(objs.author)
    else if name == "channel" then Some(objs.channel)
    else if name == "server" then Some(objs.server)
    else None
  }

  function DotIndex(s: string): (k: nat)
    requires '.' in s
    ensures k < |s| && s[k] == '.' && '.' !in s[..k]
  {
    if s[0] == '.' then 0
    else
      assert '.' in s[1..] by {
        var i :| 0 <= i < |s| && s[i] == '.';
        assert s[1..][i - 1] == '.';
      }
      var k := 1 + DotIndex(s[1..]);
      assert s[..k] == [s[0]] + s[1..][..k - 1];
      k
  }

  /**
   * `transform_parameter`: a bare object name becomes its `str()`; a
   * `first.second` with exactly one dot, a known `first` and a `second`
   * not starting with `_` becomes the attribute's `str()`, if it has one;
   * everything else is left as the braced original. `attr` is the
   * attribute lookup on the named object.
   */
  function TransformParameter(result: string, objs: Objects, attr: (string, string) -> Option<string>): (p: string)
    ensures ObjectStr(objs, result).Some? ==> p == ObjectStr(objs, result).value
    ensures ObjectStr(objs, result).None? && Count(result, '.') != 1 ==> p == "{" + result + "}"
    ensures ObjectStr(objs, result).None? && Count(result, '.') == 1 ==>
      var k := DotIndex(result);
      var first := result[..k];
      var second := result[k + 1..];
      p == if ObjectStr(objs, first).Some? && !StartsWith(second, "_") && attr(first, second).Some?
           then attr(first, second).value else "{" + result + "}"
  {
    var raw := "{" + result + "}";
    var named := ObjectStr(objs, result);
    if named.Some? then named.value
    else if Count(result, '.') != 1 then raw
    else
      var k := DotIndex(result);
      var first := result[..k];
      var second := result[k + 1..];
      if ObjectStr(objs, first).Some? && !StartsWith(second, "_") then
        var v := attr(first, second);
        if v.Some? then v.value else raw
      else raw
  }

  /**
   * An unknown name is never expanded: neither a bare one, nor `foo.bar`
   * with an unknown `foo`, nor one whose attribute name starts with `_`.
   */
  lemma UnknownParameterKept(result: string, objs: Objects, attr: (string, string) -> Option<string>)
    requires ObjectStr(objs, result).None?
    requires '.' !in result || ObjectStr(objs, result[..DotIndex(result)]).None?
      || StartsWith(result[DotIndex(result) + 1..], "_")
    ensures TransformParameter(result, objs, attr) == "{" + result + "}"
  {
  }

  /** The text after `format_cc`'s loop over the found placeholders. */
  function ReplaceEach(command: string, results: seq<string>, objs: Objects, attr: (string, string) -> Option<string>): string
    decreases |results|
  {
    if |results| == 0 then command
    else
      var raw := "{" + results[0] + "}";
      ReplaceEach(ReplaceAll(command, raw, TransformParameter(results[0], objs, attr)), results[1..], objs, attr)
  }

  /** When every placeholder stays as it is, formatting leaves the meme text unchanged. */
  lemma {:induction false} ReplaceEachKept(command: string, results: seq<string>, objs: Objects, attr: (string, string) -> Option<string>)
    requires forall r :: r in results ==> TransformParameter(r, objs, attr) == "{" + r + "}"
    ensures ReplaceEach(command, results, objs, attr) == command
    decreases |results|
  {
    if |results| > 0 {
      assert results[0] in results;
      ReplaceAllSelf(command, "{" + results[0] + "}");
      assert forall r :: r in results[1..] ==> r in results;
      ReplaceEachKept(command, results[1..], objs, attr);
    }
  }

  /** `format_cc`. */
  method FormatCC(command: string, objs: Objects, attr: (string, string) -> Option<string>) returns (r: string)
    ensures r == ReplaceEach(command, Placeholders(command), objs, attr)
  {
    var results := Placeholders(command);
    r := command;
    var i := 0;
    while i < |results|
      invariant 0 <= i <= |results|
      invariant ReplaceEach(command, results, objs, attr) == ReplaceEach(r, results[i..], objs, attr)
      decreases |results| - i
    {
      assert results[i..][1..] == results[i + 1..];
      var param := TransformParameter(results[i], objs, attr);
      r := ReplaceAll(r, "{" + results[i] + "}", param);
      i := i + 1;
    }
  }

  // -------------------------------------------------------------- listener

  datatype MemeReply = Silent | Send(text: string) | CtxNameError

  /** The meme a command names: the exact text first, then its lower-cased form. */
  function MemeKey(memes: map<string, string>, cmd: string): (k: Option<string>)
    ensures k.Some? ==> k.value in memes
    ensures cmd in memes ==> k == Some(cmd)
    ensures cmd !in memes ==> k == if Lower(cmd) in memes then Some(Lower(cmd)) else None
  {
    if cmd in memes then Some(cmd) else if Lower(cmd) in memes then Some(Lower(cmd)) else None
  }

  /** A message seen by the listener. */
  datatype Message = Message(content: string, isPrivate: bool, objs: Objects)

  /**
   * The listener's gates: at least two characters outside private channels,
   * a non-empty matching prefix, and the meme role (if one is set) held.
   */
  predicate Gated(m: Message, prefix: Option<string>, privileged: Option<int>, holdsRole: bool) {
    |m.content| >= 2 && !m.isPrivate && prefix.Some? && prefix.value != "" &&
    (privileged.Some? ==> holdsRole)
  }

  /**
   * `checkCC` as written: past the gates it reads the memes of `ctx.guild`,
   * and `ctx` is not defined in the listener, so it always raises there.
   */
  method CheckCCAsWritten(m: Message, prefixes: seq<string>, privileged: Option<int>, holdsRole: bool,
                          memes: map<string, string>, attr: (string, string) -> Option<string>)
    returns (r: MemeReply)
    ensures !Gated(m, FirstPrefix(m.content, prefixes), privileged, holdsRole) ==> r == Silent
    ensures Gated(m, FirstPrefix(m.content, prefixes), privileged, holdsRole) ==> r == CtxNameError
  {
    if |m.content| < 2 || m.isPrivate {
      return Silent;
    }
    var prefix := GetPrefix(m.content, prefixes);
    if prefix.None? || prefix.value == "" {
      return Silent;
    }
    if privileged.Some? && !holdsRole {
      return Silent;
    }
    r := CtxNameError;
  }

  /**
   * `checkCC` as intended: with the message's own guild memes, the text
   * after the prefix names a meme (exactly, or lower-cased) whose formatted
   * text is sent.
   */
  method CheckCC(m: Message, prefixes: seq<string>, privileged: Option<int>, holdsRole: bool,
                 memes: map<string, string>, attr: (string, string) -> Option<string>)
    returns (r: MemeReply)
    ensures !Gated(m, FirstPrefix(m.content, prefixes), privileged, holdsRole) ==> r == Silent
    ensures Gated(m, FirstPrefix(m.content, prefixes), privileged, holdsRole) ==>
      var cmd := m.content[|FirstPrefix(m.content, prefixes).value|..];
      var key := MemeKey(memes, cmd);
      r == if key.Some? then Send(ReplaceEach(memes[key.value], Placeholders(memes[key.value]), m.objs, attr)) else Silent
  {
    if |m.content| < 2 || m.isPrivate {
      return Silent;
    }
    var prefix := GetPrefix(m.content, prefixes);
    if prefix.None? || prefix.value == "" {
      return Silent;
    }
    if privileged.Some? && !holdsRole {
      return Silent;
    }
    var cmd := m.content[|prefix.value|..];
    if cmd in memes {
      var text := FormatCC(memes[cmd], m.objs, attr);
      return Send(text);
    } else if Lower(cmd) in memes {
      var text := FormatCC(memes[Lower(cmd)], m.objs, attr);
      return Send(text);
    }
    r := Silent;
  }

  /**
   * The meme "hi" with prefix "!": the message "!hi" raises as written and
   * is answered with "hello" as intended.
   */
  method MemeNeverSent() returns (asWritten: MemeReply, asIntended: MemeReply)
    ensures asWritten == CtxNameError && asIntended == Send("hello")
  {
    var m := Message("!hi", false, Objects("", "", "", ""));
    var attr := (a: string, b: string) => None;
    assert StartsWith("!hi", "!");
    assert FirstPrefix("!hi", ["!"]) == Some("!");
    asWritten := CheckCCAsWritten(m, ["!"], None, false, map["hi" := "hello"], attr);
    asIntended := CheckCC(m, ["!"], None, false, map["hi" := "hello"], attr);
    assert "!hi"[1..] == "hi";
    assert Placeholders("hello") == [] by {
      assert "hello"[1..] == "ello" && "ello"[1..] == "llo" && "llo"[1..] == "lo" && "lo"[1..] == "o" && "o"[1..] == "";
    }
  }
}
