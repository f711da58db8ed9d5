/**
 * Donor perks: each donor may store one custom text command and one custom
 * embed command; servers can switch the perks off, and donors can opt in
 * to insults. The message listener answers a donor's own command.
 *
 * Who is a donor (roles on the support server, bot owners) arrives as a
 * flag; the insult listener's random rolls and the persistence of the
 * settings are not modelled.
 */
module Donations {
  import opened Common

  datatype CustomCommand = CustomCommand(command: string, text: string)
  datatype CustomEmbed = CustomEmbed(command: string, title: string, url: string, footer: string)

  /** The embed `addCustomEmbed` stores: the command lower-cased then stripped, the other parts stripped. */
  function EmbedOf(command: string, title: string, url: string, footer: string): CustomEmbed {
    CustomEmbed(Strip(Lower(command)), Strip(title), Strip(url), Strip(footer))
  }

  /** The stored data the data-request command reports. */
  datatype UserData = UserData(command: string, embed: string, insult: bool)
  const NO_DATA := UserData("", "", false)

  /** An embed as sent: each part is set only when its stored text is non-empty. */
  datatype Embed = Embed(title: Option<string>, image: Option<string>, footer: Option<string>)

  datatype Reply = NoReply | SendText(text: string) | SendEmbed(embed: Embed)

  /** Outcome of the dict `remove` that the removal helpers call. */
  datatype RmOutcome = Absent | AttributeError

  /** Python `s[k:]` for `k >= 0`. */
  function Drop(s: string, k: nat): (r: string)
    ensures |r| == if k <= |s| then |s| - k else 0
    ensures k <= |s| ==> r == s[k..]
  {
    if k <= |s| then s[k..] else ""
  }

  function NonEmpty(s: string): (r: Option<string>)
    ensures r.Some? <==> |s| > 0
    ensures r.Some? ==> r.value == s
  {
    if |s| > 0 then Some(s) else None
  }

  /** The embed shows each non-empty field as stored and leaves out the empty ones. */
  function BuildEmbed(e: CustomEmbed): (r: Embed)
    ensures (r.title.Some? <==> |e.title| > 0) && (r.title.Some? ==> r.title.value == e.title)
    ensures (r.image.Some? <==> |e.url| > 0) && (r.image.Some? ==> r.image.value == e.url)
    ensures (r.footer.Some? <==> |e.footer| > 0) && (r.footer.Some? ==> r.footer.value == e.footer)
  {
    Embed(NonEmpty(e.title), NonEmpty(e.url), NonEmpty(e.footer))
  }

  /** `getUserData`: the stored command names and the insult opt-in, empty where absent. */
  function UserDataOf(commands: map<int, CustomCommand>, embeds: map<int, CustomEmbed>,
                      insultsEnabled: seq<int>, uid: int): (d: UserData)
    ensures d == NO_DATA <==> (uid !in commands || commands[uid].command == "") &&
                              (uid !in embeds || embeds[uid].command == "") && uid !in insultsEnabled
  {
    UserData(if uid in commands then commands[uid].command else "",
             if uid in embeds then embeds[uid].command else "",
             uid in insultsEnabled)
  }

  lemma NothingStored(commands: map<int, CustomCommand>, embeds: map<int, CustomEmbed>,
                      insultsEnabled: seq<int>, uid: int)
    requires uid !in commands && uid !in embeds && uid !in insultsEnabled
    ensures UserDataOf(commands, embeds, insultsEnabled, uid) == NO_DATA
  {
  }

  /** The donations settings. */
  class DonationsSettings {
    var commands: map<int, CustomCommand>
    var embeds: map<int, CustomEmbed>
    var disabledServers: seq<int>
    var insultsEnabled: seq<int>
    var dps: (int, int, Option<int>)

    /** The id lists never repeat an id. */
    predicate Valid()
      reads this
    {
      NoDup(disabledServers) && NoDup(insultsEnabled)
    }

    constructor ()
      ensures Valid()
      ensures commands == map[] && embeds == map[] && disabledServers == [] && insultsEnabled == []
      ensures dps == (0, 0, None)
    {
      commands := map[];
      embeds := map[];
      disabledServers := [];
      insultsEnabled := [];
      dps := (0, 0, None);
    }

    /** `addCustomCommand`: one command per user, stored lower-cased. */
    method AddCustomCommand(uid: int, command: string, text: string)
      modifies this
      ensures commands == old(commands)[uid := CustomCommand(Lower(command), text)]
      ensures embeds == old(embeds) && disabledServers == old(disabledServers)
      ensures insultsEnabled == old(insultsEnabled) && dps == old(dps)
    {
      commands := commands[uid := CustomCommand(Lower(command), text)];
    }

    /** `addCustomEmbed`: the command lower-cased then stripped, the other parts stripped. */
    method AddCustomEmbed(uid: int, command: string, title: string, url: string, footer: string)
      modifies this
      ensures embeds == old(embeds)[uid := EmbedOf(command, title, url, footer)]
      ensures commands == old(commands) && disabledServers == old(disabledServers)
      ensures insultsEnabled == old(insultsEnabled) && dps == old(dps)
    {
      var e := EmbedOf(command, title, url, footer);
      StoreEmbed(uid, e);
    }

    /** Stores one user's embed. */
    method StoreEmbed(uid: int, e: CustomEmbed)
      modifies this
      ensures embeds == old(embeds)[uid := e]
      ensures commands == old(commands) && disabledServers == old(disabledServers)
      ensures insultsEnabled == old(insultsEnabled) && dps == old(dps)
    {
      embeds := embeds[uid := e];
    }

    /**
     * `rmCustomCommand` as written: it calls `remove` on a dict, which has
     * no such method, so a stored command is never removed.
     */
    method RmCustomCommandAsWritten(uid: int) returns (r: RmOutcome)
      modifies this
      ensures r == AttributeError <==> uid in old(commands)
      ensures commands == old(commands) && embeds == old(embeds)
      ensures disabledServers == old(disabledServers) && insultsEnabled == old(insultsEnabled) && dps == old(dps)
    {
      if uid in commands {
        return AttributeError;
      }
      r := Absent;
    }

    /** `rmCustomCommand` as intended: deletes the user's command if there is one. */
    method RmCustomCommand(uid: int)
      modifies this
      ensures commands == old(commands) - {uid}
      ensures embeds == old(embeds) && disabledServers == old(disabledServers)
      ensures insultsEnabled == old(insultsEnabled) && dps == old(dps)
    {
      if uid in commands {
        commands := commands - {uid};
      }
    }

    /** `rmCustomEmbed` as written: the same dict `remove` error. */
    method RmCustomEmbedAsWritten(uid: int) returns (r: RmOutcome)
      modifies this
      ensures r == AttributeError <==> uid in old(embeds)
      ensures commands == old(commands) && embeds == old(embeds)
      ensures disabledServers == old(disabledServers) && insultsEnabled == old(insultsEnabled) && dps == old(dps)
    {
      if uid in embeds {
        return AttributeError;
      }
      r := Absent;
    }

    /** `rmCustomEmbed` as intended. */
    method RmCustomEmbed(uid: int)
      modifies this
      ensures embeds == old(embeds) - {uid}
      ensures commands == old(commands) && disabledServers == old(disabledServers)
      ensures insultsEnabled == old(insultsEnabled) && dps == old(dps)
    {
      if uid in embeds {
        embeds := embeds - {uid};
      }
    }

    /** `addDisabledServer`: appends the id unless it is already there. */
    method AddDisabledServer(sid: int)
      requires Valid()
      modifies this
      ensures Valid()
      ensures disabledServers == if sid in old(disabledServers) then old(disabledServers) else old(disabledServers) + [sid]
      ensures commands == old(commands) && embeds == old(embeds)
      ensures insultsEnabled == old(insultsEnabled) && dps == old(dps)
    {
      if sid !in disabledServers {
        AppendNoDup(disabledServers, sid);
        disabledServers := disabledServers + [sid];
      }
    }

    /** `rmDisabledServer`: removes the id if it is there. */
    method RmDisabledServer(sid: int)
      requires Valid()
      modifies this
      ensures Valid()
      ensures disabledServers == RemoveFirst(old(disabledServers), sid)
      ensures sid !in disabledServers
      ensures commands == old(commands) && embeds == old(embeds)
      ensures insultsEnabled == old(insultsEnabled) && dps == old(dps)
    {
      RemoveFirstNoDup(disabledServers, sid);
      if sid in disabledServers {
        disabledServers := RemoveFirst(disabledServers, sid);
      }
    }

    /** `addInsultsEnabled`: appends the id unless it is already there. */
    method AddInsultsEnabled(uid: int)
      requires Valid()
      modifies this
      ensures Valid()
      ensures insultsEnabled == if uid in old(insultsEnabled) then old(insultsEnabled) else old(insultsEnabled) + [uid]
      ensures commands == old(commands) && embeds == old(embeds)
      ensures disabledServers == old(disabledServers) && dps == old(dps)
    {
      if uid !in insultsEnabled {
        AppendNoDup(insultsEnabled, uid);
        insultsEnabled := insultsEnabled + [uid];
      }
    }

    /** `rmInsultsEnabled`: removes the id if it is there. */
    method RmInsultsEnabled(uid: int)
      requires Valid()
      modifies this
      ensures Valid()
      ensures insultsEnabled == RemoveFirst(old(insultsEnabled), uid)
      ensures uid !in insultsEnabled
      ensures commands == old(commands) && embeds == old(embeds)
      ensures disabledServers == old(disabledServers) && dps == old(dps)
    {
      RemoveFirstNoDup(insultsEnabled, uid);
      if uid in insultsEnabled {
        insultsEnabled := RemoveFirst(insultsEnabled, uid);
      }
    }

    /** `togglePerks`: flips whether the server is disabled; `enabled` is the reply. */
    method TogglePerks(sid: int) returns (enabled: bool)
      requires Valid()
      modifies this
      ensures Valid()
      ensures enabled <==> sid in old(disabledServers)
      ensures sid in disabledServers <==> sid !in old(disabledServers)
      ensures forall s :: s != sid ==> (s in disabledServers <==> s in old(disabledServers))
      ensures commands == old(commands) && embeds == old(embeds)
      ensures insultsEnabled == old(insultsEnabled) && dps == old(dps)
    {
      if sid in disabledServers {
        forall s | s != sid
          ensures s in RemoveFirst(disabledServers, sid) <==> s in disabledServers
        {
          RemoveFirstMembers(disabledServers, sid, s);
        }
        RmDisabledServer(sid);
        enabled := true;
      } else {
        AddDisabledServer(sid);
        enabled := false;
      }
    }

    /** `setDPS`: the donor role, patron role and support server. */
    method SetDps(donorRole: int, patronRole: int, server: Option<int>)
      modifies this
      ensures dps == (donorRole, patronRole, server)
      ensures commands == old(commands) && embeds == old(embeds)
      ensures disabledServers == old(disabledServers) && insultsEnabled == old(insultsEnabled)
    {
      dps := (donorRole, patronRole, server);
    }

    /** `getUserData`, on the stored settings. */
    function GetUserData(uid: int): (r: UserData)
      reads this
      ensures r.insult <==> uid in insultsEnabled
      ensures uid in commands ==> r.command == commands[uid].command
      ensures uid !in commands ==> r.command == ""
      ensures uid in embeds ==> r.embed == embeds[uid].command
      ensures uid !in embeds ==> r.embed == ""
      ensures uid !in commands && uid !in embeds && uid !in insultsEnabled ==> r == NO_DATA
    {
      UserDataOf(commands, embeds, insultsEnabled, uid)
    }

    /** `clearUserData` (and `clearUserDataFull`, which only calls it): afterwards nothing is stored for the user. */
    method ClearUserData(uid: int)
      requires Valid()
      modifies this
      ensures Valid()
      ensures UserDataOf(commands, embeds, insultsEnabled, uid) == NO_DATA
      ensures commands == old(commands) - {uid} && embeds == old(embeds) - {uid}
      ensures insultsEnabled == RemoveFirst(old(insultsEnabled), uid)
      ensures disabledServers == old(disabledServers) && dps == old(dps)
    {
      RmCustomCommand(uid);
      RmCustomEmbed(uid);
      RmInsultsEnabled(uid);
      NothingStored(commands, embeds, insultsEnabled, uid);
    }

  }

  /** A message seen by the listener. */
  datatype Message = Message(guild: Option<int>, author: int, content: string)

  /** The listener's gates: a support server is set, the text is long enough, the author is a donor, the server is not disabled. */
  predicate Gated(disabledServers: seq<int>, supportGuild: bool, isDonor: bool, m: Message) {
    supportGuild && |m.content| >= 2 && isDonor && !(m.guild.Some? && m.guild.value in disabledServers)
  }

  /**
   * `checkCC` as written: past the gates, the message less `len(prefix)`
   * leading characters, lower-cased, is matched against the author's custom
   * command first and then the custom embed. Nothing checks that the
   * message starts with the prefix.
   */
  function CheckCCAsWritten(commands: map<int, CustomCommand>, embeds: map<int, CustomEmbed>,
                            disabledServers: seq<int>, supportGuild: bool, isDonor: bool,
                            m: Message, prefix: string): (r: Reply)
    ensures !Gated(disabledServers, supportGuild, isDonor, m) ==> r == NoReply
    ensures r.SendText? <==>
      Gated(disabledServers, supportGuild, isDonor, m) &&
      m.author in commands && Lower(Drop(m.content, |prefix|)) == commands[m.author].command
    ensures r.SendEmbed? <==>
      Gated(disabledServers, supportGuild, isDonor, m) &&
      !(m.author in commands && Lower(Drop(m.content, |prefix|)) == commands[m.author].command) &&
      m.author in embeds && Lower(Drop(m.content, |prefix|)) == embeds[m.author].command
    ensures r.SendText? ==>
      m.author in commands && r.text == commands[m.author].text &&
      Lower(Drop(m.content, |prefix|)) == commands[m.author].command
    ensures r.SendEmbed? ==>
      m.author in embeds && r.embed == BuildEmbed(embeds[m.author]) &&
      Lower(Drop(m.content, |prefix|)) == embeds[m.author].command
  {
    if !Gated(disabledServers, supportGuild, isDonor, m) then NoReply
    else
      var cmd := Lower(Drop(m.content, |prefix|));
      var uid := m.author;
      if uid in commands && cmd == commands[uid].command then SendText(commands[uid].text)
      else if uid in embeds && cmd == embeds[uid].command then SendEmbed(BuildEmbed(embeds[uid]))
      else NoReply
  }

  /** `checkCC` as intended: the same, for messages that start with the prefix. */
  function CheckCC(commands: map<int, CustomCommand>, embeds: map<int, CustomEmbed>,
                   disabledServers: seq<int>, supportGuild: bool, isDonor: bool,
                   m: Message, prefix: string): (r: Reply)
    ensures r.SendText? <==>
      Gated(disabledServers, supportGuild, isDonor, m) && StartsWith(m.content, prefix) &&
      m.author in commands && Lower(m.content[|prefix|..]) == commands[m.author].command
    ensures r.SendText? ==> r.text == commands[m.author].text
    ensures r.SendEmbed? <==>
      Gated(disabledServers, supportGuild, isDonor, m) && StartsWith(m.content, prefix) &&
      !(m.author in commands && Lower(m.content[|prefix|..]) == commands[m.author].command) &&
      m.author in embeds && Lower(m.content[|prefix|..]) == embeds[m.author].command
    ensures r.SendEmbed? ==>
      var e := embeds[m.author];
      r.embed == Embed(if |e.title| > 0 then Some(e.title) else None,
                       if |e.url| > 0 then Some(e.url) else None,
                       if |e.footer| > 0 then Some(e.footer) else None)
  {
    if !StartsWith(m.content, prefix) then NoReply
    else CheckCCAsWritten(commands, embeds, disabledServers, supportGuild, isDonor, m, prefix)
  }

  /**
   * Removing a stored custom command as written leaves it in place: the
   * dict has no `remove`, so the call raises before anything changes.
   * The intended removal deletes it.
   */
  method RmCustomCommandKeepsCommand() returns (asWritten: RmOutcome, keptAsWritten: bool, keptAsIntended: bool)
    ensures asWritten == AttributeError && keptAsWritten && !keptAsIntended
  {
    var s := new DonationsSettings();
    s.AddCustomCommand(7, "hi", "hello");
    asWritten := s.RmCustomCommandAsWritten(7);
    keptAsWritten := 7 in s.commands;
    s.RmCustomCommand(7);
    keptAsIntended := 7 in s.commands;
  }

  /**
   * With prefix "!" the message "xhi", which does not start with the
   * prefix, still runs the custom command "hi" as written, and not as
   * intended.
   */
  lemma UnprefixedMessageRunsCommand()
    ensures var cmds := map[7 := CustomCommand("hi", "hello")];
      var m := Message(None, 7, "xhi");
      CheckCCAsWritten(cmds, map[], [], true, true, m, "!") == SendText("hello") &&
      CheckCC(cmds, map[], [], true, true, m, "!") == NoReply
  {
    assert Lower(Drop("xhi", |"!"|)) == "hi" by {
      assert Drop("xhi", 1) == "hi";
    }
    assert "xhi"[..1] != "!" by {
      assert "xhi"[..1][0] == 'x';
    }
  }
}
