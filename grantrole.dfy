/**
 * Roles granted on join and on reaction. A guild keeps the list of roles
 * every new member gets, and a map from message id to emoji id to role id
 * (both keys stored as strings). Role hierarchy positions, the guild's
 * existing roles and the roles the bot may not grant arrive as parameters.
 */
module GrantRole {
  import opened Common

  /** `str(x)` of an id or of `None`. */
  function Key(id: Option<int>): string {
    if id.Some? then IntToString(id.value) else "None"
  }

  /** An emoji argument: one the emoji converter resolves (custom, with an id) or any other text. */
  datatype EmojiArg = Custom(id: int) | Other(text: string)

  /** The emoji of a reaction event. */
  datatype PartialEmoji = PartialEmoji(id: Option<int>, name: string)

  datatype JoinOutcome = NotPermitted | AlreadyOnJoin | NotOnJoin | JoinUpdated
  /**
   * `EmojiNameError`: for an emoji the converter rejects, the fallback
   * check names a module that is never imported.
   */
  datatype ReactOutcome = EmojiNameError | ReactNotPermitted | NotMapped | ReactUpdated

  /**
   * `can_assign`: the guild owner may; anyone else needs their top role and
   * the bot's top role to be at least the role (by hierarchy position).
   */
  function CanAssign(author: int, owner: int, authorTop: int, botTop: int, role: int): (ok: bool)
    ensures author == owner ==> ok
    ensures author != owner ==> (ok <==> role <= authorTop && role <= botTop)
  {
    if author == owner then true
    else if authorTop < role then false
    else if botTop < role then false
    else true
  }

  /** The role a reaction maps to, `roles.get(msg, {}).get(emoji)`. */
  function RoleFor(onReact: map<string, map<string, int>>, msgKey: string, emojiKey: string): (r: Option<int>)
    ensures r.Some? <==> msgKey in onReact && emojiKey in onReact[msgKey]
    ensures r.Some? ==> r.value == onReact[msgKey][emojiKey]
  {
    if msgKey in onReact && emojiKey in onReact[msgKey] then Some(onReact[msgKey][emojiKey]) else None
  }

  /** Whether `on_react.get(msg)` and its `.get(emoji)` are both truthy (a role id 0 counts as unmapped). */
  predicate Mapped(onReact: map<string, map<string, int>>, msgKey: string, emojiKey: string) {
    msgKey in onReact && onReact[msgKey] != map[] && emojiKey in onReact[msgKey] && onReact[msgKey][emojiKey] != 0
  }

  /** `on_reaction_add`: the role to grant, looked up by the emoji's id. */
  function ReactionAdd(onReact: map<string, map<string, int>>, msgId: int, emoji: PartialEmoji): (r: Option<int>)
    ensures var m := IntToString(msgId); var k := Key(emoji.id);
      (r.Some? <==> m in onReact && k in onReact[m]) && (r.Some? ==> r.value == onReact[m][k])
  {
    RoleFor(onReact, IntToString(msgId), Key(emoji.id))
  }

  /** `on_reaction_remove` as written: the lookup uses the emoji's name, while mappings are stored by id. */
  function ReactionRemoveAsWritten(onReact: map<string, map<string, int>>, msgId: int, emoji: PartialEmoji): (r: Option<int>)
    ensures var m := IntToString(msgId);
      (r.Some? <==> m in onReact && emoji.name in onReact[m]) && (r.Some? ==> r.value == onReact[m][emoji.name])
  {
    RoleFor(onReact, IntToString(msgId), emoji.name)
  }

  /** `on_reaction_remove` as intended: the role is taken back under the same lookup that granted it. */
  function ReactionRemove(onReact: map<string, map<string, int>>, msgId: int, emoji: PartialEmoji): (r: Option<int>)
    ensures r == ReactionAdd(onReact, msgId, emoji)
  {
    RoleFor(onReact, IntToString(msgId), Key(emoji.id))
  }

  /**
   * With one mapping for custom emoji 77 (named "blob") on message 5,
   * adding the reaction grants role 9, but removing it as written takes
   * nothing back; as intended it takes back role 9.
   */
  lemma RemoveReactionMissesMapping()
    ensures var onReact := map[IntToString(5) := map[IntToString(77) := 9]];
      var e := PartialEmoji(Some(77), "blob");
      ReactionAdd(onReact, 5, e) == Some(9) &&
      ReactionRemoveAsWritten(onReact, 5, e) == None &&
      ReactionRemove(onReact, 5, e) == Some(9)
  {
    var k := IntToString(77);
    assert k == "77" by {
      assert DigitString(77) == DigitString(7) + ['7'];
    }
    assert "blob" != k by {
      assert "blob"[0] != k[0];
    }
  }

  /** The roles a joining member gets: each stored role that still exists, in order, until one the bot may not grant raises. */
  function JoinGrants(roles: seq<int>, existing: set<int>, forbidden: set<int>): (r: seq<int>)
    ensures |r| <= |roles|
  {
    if |roles| == 0 then []
    else if roles[0] !in existing then JoinGrants(roles[1..], existing, forbidden)
    else if roles[0] in forbidden then []
    else [roles[0]] + JoinGrants(roles[1..], existing, forbidden)
  }

  /** Every role granted on join is stored and still exists; with nothing forbidden, every such role is granted. */
  lemma {:induction false} JoinGrantsExisting(roles: seq<int>, existing: set<int>, forbidden: set<int>)
    ensures forall r :: r in JoinGrants(roles, existing, forbidden) ==> r in roles && r in existing && r !in forbidden
    ensures forbidden == {} ==> forall r :: r in roles && r in existing ==> r in JoinGrants(roles, existing, forbidden)
  {
    if |roles| > 0 {
      JoinGrantsExisting(roles[1..], existing, forbidden);
      assert forall r :: r in roles ==> r == roles[0] || r in roles[1..];
    }
  }

  /** One guild's grant-role configuration. */
  class GuildRoles {
    var onJoin: seq<int>
    var onReact: map<string, map<string, int>>

    /** The join list never repeats a role. */
    predicate Valid()
      reads this
    {
      NoDup(onJoin)
    }

    constructor ()
      ensures Valid() && onJoin == [] && onReact == map[]
    {
      onJoin := [];
      onReact := map[];
    }

    /** `onjoin add`: refuses a role the author may not assign or one already listed, otherwise appends it. */
    method OnJoinAdd(role: int, permitted: bool) returns (o: JoinOutcome)
      requires Valid()
      modifies this
      ensures Valid() && onReact == old(onReact)
      ensures !permitted ==> o == NotPermitted && onJoin == old(onJoin)
      ensures permitted && role in old(onJoin) ==> o == AlreadyOnJoin && onJoin == old(onJoin)
      ensures permitted && role !in old(onJoin) ==> o == JoinUpdated && onJoin == old(onJoin) + [role]
    {
      if !permitted {
        return NotPermitted;
      }
      if role in onJoin {
        return AlreadyOnJoin;
      }
      AppendNoDup(onJoin, role);
      onJoin := onJoin + [role];
      o := JoinUpdated;
    }

    /** `onjoin remove`: refuses a role that is not listed, otherwise removes it. */
    method OnJoinRemove(role: int) returns (o: JoinOutcome)
      requires Valid()
      modifies this
      ensures Valid() && onReact == old(onReact)
      ensures role !in old(onJoin) ==> o == NotOnJoin && onJoin == old(onJoin)
      ensures role in old(onJoin) ==> o == JoinUpdated && onJoin == RemoveFirst(old(onJoin), role)
      ensures role !in onJoin
    {
      if role !in onJoin {
        return NotOnJoin;
      }
      RemoveFirstNoDup(onJoin, role);
      onJoin := RemoveFirst(onJoin, role);
      o := JoinUpdated;
    }

    /**
     * `onreact add`: for a custom emoji the author may assign, maps
     * (message, emoji) to the role, creating the message's map and
     * replacing any earlier role.
     */
    method OnReactAdd(msgId: int, emoji: EmojiArg, role: int, permitted: bool) returns (o: ReactOutcome)
      modifies this
      ensures onJoin == old(onJoin)
      ensures emoji.Other? ==> o == EmojiNameError && onReact == old(onReact)
      ensures emoji.Custom? && !permitted ==> o == ReactNotPermitted && onReact == old(onReact)
      ensures emoji.Custom? && permitted ==> (
        var m := IntToString(msgId);
        o == ReactUpdated &&
        onReact == old(onReact)[m := (if m in old(onReact) then old(onReact)[m] else map[])[IntToString(emoji.id) := role]])
      ensures emoji.Custom? && permitted ==> RoleFor(onReact, IntToString(msgId), IntToString(emoji.id)) == Some(role)
    {
      if emoji.Other? {
        return EmojiNameError;
      }
      if !permitted {
        return ReactNotPermitted;
      }
      var m := IntToString(msgId);
      var inner := if m in onReact then onReact[m] else map[];
      onReact := onReact[m := inner];
      onReact := onReact[m := onReact[m][IntToString(emoji.id) := role]];
      o := ReactUpdated;
    }

    /** `onreact remove`: refuses an unmapped pair, otherwise deletes only that entry. */
    method OnReactRemove(msgId: int, emoji: EmojiArg) returns (o: ReactOutcome)
      modifies this
      ensures onJoin == old(onJoin)
      ensures emoji.Other? ==> o == EmojiNameError && onReact == old(onReact)
      ensures emoji.Custom? && !Mapped(old(onReact), IntToString(msgId), IntToString(emoji.id)) ==>
        o == NotMapped && onReact == old(onReact)
      ensures emoji.Custom? && Mapped(old(onReact), IntToString(msgId), IntToString(emoji.id)) ==>
        var m := IntToString(msgId);
        o == ReactUpdated && onReact == old(onReact)[m := old(onReact)[m] - {IntToString(emoji.id)}]
      ensures emoji.Custom? && o == ReactUpdated ==> RoleFor(onReact, IntToString(msgId), IntToString(emoji.id)).None?
    {
      if emoji.Other? {
        return EmojiNameError;
      }
      var m := IntToString(msgId);
      var e := IntToString(emoji.id);
      if !Mapped(onReact, m, e) {
        return NotMapped;
      }
      onReact := onReact[m := onReact[m] - {e}];
      o := ReactUpdated;
    }

    /** `on_member_join`: grants the stored roles that still exist, stopping if the bot is refused. */
    method OnMemberJoin(existing: set<int>, forbidden: set<int>) returns (granted: seq<int>)
      ensures granted == JoinGrants(onJoin, existing, forbidden)
    {
      granted := [];
      var i := 0;
      while i < |onJoin|
        invariant 0 <= i <= |onJoin|
        invariant granted + JoinGrants(onJoin[i..], existing, forbidden) == JoinGrants(onJoin, existing, forbidden)
        decreases |onJoin| - i
      {
        var r := onJoin[i];
        assert onJoin[i..][1..] == onJoin[i + 1..];
        if r in existing {
          if r in forbidden {
            return;
          }
          granted := granted + [r];
        }
        i := i + 1;
      }
    }
  }
}
