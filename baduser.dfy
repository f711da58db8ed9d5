/**
 * The bad-user cog's settings store: per-server role lists, strike lists,
 * announcement channel and strike privacy, the global banned-user map and
 * opted-in server list, the per-user data queries, and the two commands with
 * logic of their own: `deletestrike` and the role-change classification of
 * `check_punishment`.
 *
 * Server and user ids are one integer type, except in the opted-in list,
 * where an id stored as an int and the same id stored as its decimal string
 * are different entries.
 */
module BadUser {
  import opened Common

  datatype RoleKind = Punishment | Positive | Neutral

  /**
   * One server's settings dict. Keys the code creates lazily are optional:
   * `badusers` only appears once a strike accessor has run.
   */
  datatype ServerConfig = ServerConfig(
    badusers: Option<map<int, seq<string>>>,
    roles: map<RoleKind, seq<int>>,
    channel: Option<int>,
    strikesPrivate: Option<bool>)

  const EMPTY_SERVER := ServerConfig(None, map[], None, None)

  function Guild(servers: map<int, ServerConfig>, sid: int): ServerConfig {
    if sid in servers then servers[sid] else EMPTY_SERVER
  }

  function RolesOf(c: ServerConfig, kind: RoleKind): seq<int> {
    if kind in c.roles then c.roles[kind] else []
  }

  /** `server.get('strikes_private', False)`. */
  function StrikesPrivate(c: ServerConfig): bool {
    if c.strikesPrivate.Some? then c.strikesPrivate.value else false
  }

  function Bad(c: ServerConfig): map<int, seq<string>> {
    if c.badusers.Some? then c.badusers.value else map[]
  }

  function Strikes(servers: map<int, ServerConfig>, sid: int, uid: int): seq<string> {
    var b := Bad(Guild(servers, sid));
    if uid in b then b[uid] else []
  }

  /** `count_user_strikes`. */
  function CountStrikes(servers: map<int, ServerConfig>, sid: int, uid: int): nat {
    |Strikes(servers, sid, uid)|
  }

  /** `get_bad_users` creates the server and its `badusers` dict when missing, and changes nothing else. */
  function WithBadusers(servers: map<int, ServerConfig>, sid: int): (r: map<int, ServerConfig>)
    ensures sid in r && r[sid].badusers.Some?
    ensures forall s, u :: Strikes(r, s, u) == Strikes(servers, s, u)
    ensures forall s :: s in servers && s != sid ==> s in r && r[s] == servers[s]
    ensures forall s :: s in r && s != sid ==> s in servers
  {
    var g := Guild(servers, sid);
    servers[sid := g.(badusers := Some(Bad(g)))]
  }

  /** A JSON-stored id: a number, or the decimal string of one. */
  datatype JsonId = Num(n: int) | Str(n: int)

  /** `bu_enabled`: `int(gid)` of each entry. */
  function BuEnabled(optedIn: seq<JsonId>): (r: seq<int>)
    ensures |r| == |optedIn| && forall i :: 0 <= i < |r| ==> r[i] == optedIn[i].n
  {
    if |optedIn| == 0 then [] else [optedIn[0].n] + BuEnabled(optedIn[1..])
  }

  /** `add_bu_enabled` appends the int. */
  function OptIn(optedIn: seq<JsonId>, gid: int): (r: seq<JsonId>)
    ensures |r| == |optedIn| + 1 && r[..|optedIn|] == optedIn
    ensures gid in BuEnabled(r)
  {
    var r := optedIn + [Num(gid)];
    assert BuEnabled(r)[|optedIn|] == gid;
    r
  }

  /** `rm_bu_enabled` AS WRITTEN: it looks for (and removes) only the string form `str(gid)`. */
  function OptOutAsWritten(optedIn: seq<JsonId>, gid: int): (r: seq<JsonId>)
    ensures Str(gid) !in optedIn ==> r == optedIn
    ensures multiset(r) == multiset(optedIn) - multiset{Str(gid)}
  {
    if Str(gid) in optedIn then RemoveFirst(optedIn, Str(gid)) else optedIn
  }

  /** As written, a server that opted in stays enabled after opting out. */
  lemma OptOutAsWrittenKeepsServer(optedIn: seq<JsonId>, gid: int)
    requires Str(gid) !in optedIn
    ensures OptOutAsWritten(OptIn(optedIn, gid), gid) == OptIn(optedIn, gid)
    ensures gid in BuEnabled(OptOutAsWritten(OptIn(optedIn, gid), gid))
  {
    var l := OptIn(optedIn, gid);
    assert BuEnabled(l)[|optedIn|] == gid;
  }

  /** The opt-out evidently intended: every entry for the server, in either form, is removed. */
  function OptOut(optedIn: seq<JsonId>, gid: int): (r: seq<JsonId>)
    ensures gid !in BuEnabled(r)
    ensures forall x :: x in r <==> x in optedIn && x.n != gid
  {
    var r := RemoveAll(RemoveAll(optedIn, Num(gid)), Str(gid));
    assert forall i :: 0 <= i < |r| ==> r[i].n != gid by {
      forall i | 0 <= i < |r| ensures r[i].n != gid {
        assert r[i] != Num(gid) && r[i] != Str(gid);
      }
    }
    r
  }

  /** Opting out undoes opting in, for every list the code can build. */
  lemma OptOutUndoesOptIn(optedIn: seq<JsonId>, gid: int)
    ensures gid !in BuEnabled(OptOut(OptIn(optedIn, gid), gid))
    ensures forall g :: g != gid ==> (g in BuEnabled(OptOut(OptIn(optedIn, gid), gid)) <==> g in BuEnabled(optedIn))
  {
    var r := OptOut(OptIn(optedIn, gid), gid);
    forall g | g != gid
      ensures g in BuEnabled(r) <==> g in BuEnabled(optedIn)
    {
      if g in BuEnabled(optedIn) {
        var i :| 0 <= i < |optedIn| && optedIn[i].n == g;
        assert optedIn[i] in OptIn(optedIn, gid);
        assert optedIn[i] in r;
        var j :| 0 <= j < |r| && r[j] == optedIn[i];
        assert BuEnabled(r)[j] == g;
      }
      if g in BuEnabled(r) {
        var j :| 0 <= j < |r| && r[j].n == g;
        assert r[j] in OptIn(optedIn, gid) && r[j] != Num(gid);
        assert r[j] in optedIn;
        var i :| 0 <= i < |optedIn| && optedIn[i] == r[j];
        assert BuEnabled(optedIn)[i] == g;
      }
    }
  }

  /** `togglestrikeprivacy`'s reply AS WRITTEN: the conditional binds looser than `+`. */
  function PrivacyReplyAsWritten(nowPrivate: bool): (r: string)
    ensures nowPrivate ==> r == PrivacyReply(true)
    ensures !nowPrivate ==> r == "public"
  {
    if nowPrivate then "\nStrike existance is now " + "private" else "public"
  }

  lemma PrivacyReplyDropsPrefix()
    ensures PrivacyReplyAsWritten(false) == "public"
    ensures !StartsWith(PrivacyReplyAsWritten(false), "\nStrike existance is now ")
  {
  }

  /** The reply evidently intended: the prefix, then the new policy. */
  function PrivacyReply(nowPrivate: bool): (r: string)
    ensures StartsWith(r, "\nStrike existance is now ")
    ensures r[|"\nStrike existance is now "|..] == (if nowPrivate then "private" else "public")
  {
    "\nStrike existance is now " + (if nowPrivate then "private" else "public")
  }

  datatype UserData = UserData(gban: string, baduser: nat)

  datatype DeleteOutcome = StrikeNotFound | StrikeIndexError | StrikeRemoved(strike: string, remaining: nat)

  /** The servers whose strike map lists the user. */
  function ServersListing(servers: map<int, ServerConfig>, uid: int): (r: set<int>)
    ensures r <= servers.Keys && |r| <= |servers|
  {
    var r := set g | g in servers && uid in Bad(servers[g]);
    SubsetCard(r, servers.Keys);
    r
  }

  /** `BadUserSettings`. */
  class BadUserSettings {
    var servers: map<int, ServerConfig>
    var banned: map<int, string>
    var optedIn: seq<JsonId>

    /** Role lists never repeat an id. */
    ghost predicate Valid()
      reads this
    {
      forall s, k :: s in servers && k in servers[s].roles ==> NoDup(servers[s].roles[k])
    }

    constructor ()
      ensures Valid() && servers == map[] && banned == map[] && optedIn == []
    {
      servers, banned, optedIn := map[], map[], [];
    }

    /** `get_*_roles`: the list, created empty when missing (the server too). */
    method GetRoles(kind: RoleKind, sid: int) returns (ids: seq<int>)
      requires Valid()
      modifies this
      ensures Valid() && banned == old(banned) && optedIn == old(optedIn)
      ensures ids == RolesOf(Guild(old(servers), sid), kind)
      ensures servers == old(servers)[sid := Guild(old(servers), sid).(roles := Guild(old(servers), sid).roles[kind := ids])]
    {
      var g := Guild(servers, sid);
      ids := RolesOf(g, kind);
      servers := servers[sid := g.(roles := g.roles[kind := ids])];
    }

    /** `add_*_role`: append the id unless it is already listed. */
    method AddRole(kind: RoleKind, sid: int, rid: int)
      requires Valid()
      modifies this
      ensures Valid() && banned == old(banned) && optedIn == old(optedIn)
      ensures var old_ids := RolesOf(Guild(old(servers), sid), kind);
        servers == old(servers)[sid := Guild(old(servers), sid).(roles :=
          Guild(old(servers), sid).roles[kind := if rid in old_ids then old_ids else old_ids + [rid]])]
      ensures rid in RolesOf(Guild(servers, sid), kind)
    {
      var g := Guild(servers, sid);
      var ids := RolesOf(g, kind);
      if rid !in ids {
        AppendNoDup(ids, rid);
        ids := ids + [rid];
      }
      servers := servers[sid := g.(roles := g.roles[kind := ids])];
    }

    /** `rm_*_role`: remove the id when listed; otherwise the list is only created. */
    method RmRole(kind: RoleKind, sid: int, rid: int)
      requires Valid()
      modifies this
      ensures Valid() && banned == old(banned) && optedIn == old(optedIn)
      ensures var old_ids := RolesOf(Guild(old(servers), sid), kind);
        servers == old(servers)[sid := Guild(old(servers), sid).(roles :=
          Guild(old(servers), sid).roles[kind := if rid in old_ids then RemoveFirst(old_ids, rid) else old_ids])]
      ensures rid !in RolesOf(Guild(servers, sid), kind)
    {
      var g := Guild(servers, sid);
      var ids := RolesOf(g, kind);
      if rid in ids {
        RemoveFirstNoDup(ids, rid);
        ids := RemoveFirst(ids, rid);
      }
      servers := servers[sid := g.(roles := g.roles[kind := ids])];
    }

    /** `update_bad_user`: one more strike for that user in that server, and for nobody else. */
    method UpdateBadUser(sid: int, uid: int, msg: string)
      requires Valid()
      modifies this
      ensures Valid() && banned == old(banned) && optedIn == old(optedIn)
      ensures Strikes(servers, sid, uid) == Strikes(old(servers), sid, uid) + [msg]
      ensures CountStrikes(servers, sid, uid) == CountStrikes(old(servers), sid, uid) + 1
      ensures forall s, u :: (s, u) != (sid, uid) ==> Strikes(servers, s, u) == Strikes(old(servers), s, u)
      ensures forall s :: s in servers <==> s in old(servers) || s == sid
      ensures var g := Guild(old(servers), sid);
        servers == old(servers)[sid := g.(badusers := Some(Bad(g)[uid := Strikes(old(servers), sid, uid) + [msg]]))]
    {
      var g := Guild(servers, sid);
      var b := Bad(g);
      var strikes := if uid in b then b[uid] else [];
      servers := servers[sid := g.(badusers := Some(b[uid := strikes + [msg]]))];
    }

    /** `count_user_strikes`, which creates the `badusers` dict as a side effect. */
    method CountUserStrikes(sid: int, uid: int) returns (n: nat)
      requires Valid()
      modifies this
      ensures Valid() && banned == old(banned) && optedIn == old(optedIn)
      ensures n == CountStrikes(old(servers), sid, uid)
      ensures servers == WithBadusers(old(servers), sid)
    {
      n := CountStrikes(servers, sid, uid);
      servers := WithBadusers(servers, sid);
    }

    /** `set_user_strikes`. */
    method SetUserStrikes(sid: int, uid: int, strikes: seq<string>)
      requires Valid()
      modifies this
      ensures Valid() && banned == old(banned) && optedIn == old(optedIn)
      ensures Strikes(servers, sid, uid) == strikes
      ensures forall s, u :: (s, u) != (sid, uid) ==> Strikes(servers, s, u) == Strikes(old(servers), s, u)
      ensures var g := Guild(old(servers), sid);
        servers == old(servers)[sid := g.(badusers := Some(Bad(g)[uid := strikes]))]
    {
      var g := Guild(servers, sid);
      servers := servers[sid := g.(badusers := Some(Bad(g)[uid := strikes]))];
    }

    /** `clear_user_strikes`: afterwards the user has no strikes in that server. */
    method ClearUserStrikes(sid: int, uid: int)
      requires Valid()
      modifies this
      ensures Valid() && banned == old(banned) && optedIn == old(optedIn)
      ensures CountStrikes(servers, sid, uid) == 0
      ensures sid in servers && uid !in Bad(servers[sid])
      ensures forall s, u :: (s, u) != (sid, uid) ==> Strikes(servers, s, u) == Strikes(old(servers), s, u)
      ensures var g := Guild(old(servers), sid);
        servers == old(servers)[sid := g.(badusers := Some(Bad(g) - {uid}))]
    {
      var g := Guild(servers, sid);
      servers := servers[sid := g.(badusers := Some(Bad(g) - {uid}))];
    }

    /** `update_channel`: None deletes the key, anything else stores it. */
    method UpdateChannel(sid: int, channel: Option<int>)
      requires Valid()
      modifies this
      ensures Valid() && banned == old(banned) && optedIn == old(optedIn)
      ensures servers == old(servers)[sid := Guild(old(servers), sid).(channel := channel)]
      ensures Guild(servers, sid).channel == channel
    {
      servers := servers[sid := Guild(servers, sid).(channel := channel)];
    }

    /**
     * `get_channel`: the stored update channel, or none. Like every accessor
     * going through `get_guild`, it stores an empty entry for a server it
     * has not seen; that entry has no `badusers` dict.
     */
    method GetChannel(sid: int) returns (r: Option<int>)
      requires Valid()
      modifies this
      ensures Valid() && banned == old(banned) && optedIn == old(optedIn)
      ensures servers == old(servers)[sid := Guild(old(servers), sid)]
      ensures sid in old(servers) ==> r == old(servers)[sid].channel
      ensures sid !in old(servers) ==> r == None && servers[sid] == EMPTY_SERVER
    {
      var g := Guild(servers, sid);
      servers := servers[sid := g];
      r := g.channel;
    }

    /** `get_strikes_private`: the stored policy, False by default; creates the entry like GetChannel. */
    method GetStrikesPrivate(sid: int) returns (p: bool)
      requires Valid()
      modifies this
      ensures Valid() && banned == old(banned) && optedIn == old(optedIn)
      ensures servers == old(servers)[sid := Guild(old(servers), sid)]
      ensures p == StrikesPrivate(Guild(old(servers), sid))
      ensures Guild(old(servers), sid).strikesPrivate.Some? ==> p == Guild(old(servers), sid).strikesPrivate.value
      ensures Guild(old(servers), sid).strikesPrivate.None? ==> !p
    {
      var g := Guild(servers, sid);
      servers := servers[sid := g];
      p := StrikesPrivate(g);
    }

    /** `togglestrikeprivacy`: flip the policy and say what it now is. */
    method ToggleStrikePrivacy(sid: int) returns (reply: string)
      requires Valid()
      modifies this
      ensures Valid() && banned == old(banned) && optedIn == old(optedIn)
      ensures StrikesPrivate(Guild(servers, sid)) == !StrikesPrivate(Guild(old(servers), sid))
      ensures forall s :: s != sid ==> Guild(servers, s) == Guild(old(servers), s)
      ensures reply == PrivacyReply(StrikesPrivate(Guild(servers, sid)))
      ensures var g := Guild(old(servers), sid);
        servers == old(servers)[sid := g.(strikesPrivate := Some(!StrikesPrivate(g)))]
    {
      var p := GetStrikesPrivate(sid);
      servers := servers[sid := Guild(servers, sid).(strikesPrivate := Some(!p))];
      reply := PrivacyReply(!p);
    }

    method AddBannedUser(uid: int, reason: string)
      modifies this
      ensures servers == old(servers) && optedIn == old(optedIn)
      ensures banned == old(banned)[uid := reason]
    {
      banned := banned[uid := reason];
    }

    method RmBannedUser(uid: int)
      modifies this
      ensures servers == old(servers) && optedIn == old(optedIn)
      ensures banned == old(banned) - {uid}
    {
      banned := banned - {uid};
    }

    method AddBuEnabled(gid: int)
      modifies this
      ensures servers == old(servers) && banned == old(banned)
      ensures optedIn == OptIn(old(optedIn), gid)
    {
      optedIn := OptIn(optedIn, gid);
    }

    /** `rm_bu_enabled`, with the lookup the opt-in evidently means. */
    method RmBuEnabled(gid: int)
      modifies this
      ensures servers == old(servers) && banned == old(banned)
      ensures optedIn == OptOut(old(optedIn), gid)
    {
      optedIn := OptOut(optedIn, gid);
    }

    /**
     * `deletestrike`: refuses an empty strike list or a number beyond it;
     * otherwise picks position `strike_num - 1` with Python's negative
     * indexing, removes the first equal strike and stores the list back.
     */
    method DeleteStrike(sid: int, uid: int, strikeNum: int) returns (r: DeleteOutcome)
      requires Valid()
      modifies this
      ensures Valid() && banned == old(banned) && optedIn == old(optedIn)
      ensures var strikes := Strikes(old(servers), sid, uid);
        ((|strikes| == 0 || |strikes| < strikeNum) ==> r == StrikeNotFound) &&
        (!(|strikes| == 0 || |strikes| < strikeNum) && PyIndex(|strikes|, strikeNum - 1).None? ==> r == StrikeIndexError) &&
        (!(|strikes| == 0 || |strikes| < strikeNum) && PyIndex(|strikes|, strikeNum - 1).Some? ==>
          r == StrikeRemoved(strikes[PyIndex(|strikes|, strikeNum - 1).value], |strikes| - 1) &&
          Strikes(servers, sid, uid) == RemoveFirst(strikes, r.strike) &&
          CountStrikes(servers, sid, uid) == CountStrikes(old(servers), sid, uid) - 1)
      ensures forall s, u :: (s, u) != (sid, uid) ==> Strikes(servers, s, u) == Strikes(old(servers), s, u)
      ensures !r.StrikeRemoved? ==> forall s, u :: Strikes(servers, s, u) == Strikes(old(servers), s, u)
      ensures !r.StrikeRemoved? ==> servers == WithBadusers(old(servers), sid)
      ensures var g := Guild(old(servers), sid);
        r.StrikeRemoved? ==>
          servers == old(servers)[sid := g.(badusers := Some(Bad(g)[uid := RemoveFirst(Strikes(old(servers), sid, uid), r.strike)]))]
    {
      var strikes := Strikes(servers, sid, uid);
      servers := WithBadusers(servers, sid);
      if |strikes| == 0 || |strikes| < strikeNum {
        return StrikeNotFound;
      }
      var k := PyIndex(|strikes|, strikeNum - 1);
      if k.None? {
        return StrikeIndexError;
      }
      var strike := strikes[k.value];
      var rest := RemoveFirst(strikes, strike);
      SetUserStrikes(sid, uid, rest);
      return StrikeRemoved(strike, |rest|);
    }

    /** The user-data report's answer given all servers have a strike map. */
    ghost function UserDataSpec(uid: int): Option<UserData>
      reads this
    {
      if exists g :: g in servers && servers[g].badusers.None? then None
      else Some(UserData(if uid in banned then banned[uid] else "", |ServersListing(servers, uid)|))
    }

    /**
     * `get_user_data`: the global ban reason (or "") and the number of servers
     * listing the user; a server without a `badusers` dict raises KeyError (None).
     */
    method GetUserData(uid: int) returns (r: Option<UserData>)
      ensures r == UserDataSpec(uid)
      ensures r.Some? ==> r.value.baduser <= |servers|
    {
      var gban := if uid in banned then banned[uid] else "";
      var count := 0;
      var todo := servers.Keys;
      ghost var seen: set<int> := {};
      while todo != {}
        invariant todo <= servers.Keys && seen == servers.Keys - todo
        invariant forall g :: g in seen ==> servers[g].badusers.Some?
        invariant count == |set g | g in seen && uid in Bad(servers[g])|
        decreases |todo|
      {
        ghost var w := SetMember(todo);
        var g :| g in todo;
        if servers[g].badusers.None? {
          return None;
        }
        ghost var before := set x | x in seen && uid in Bad(servers[x]);
        ghost var after := set x | x in seen + {g} && uid in Bad(servers[x]);
        if uid in servers[g].badusers.value {
          assert after == before + {g};
          count := count + 1;
        } else {
          assert after == before;
        }
        todo := todo - {g};
        seen := seen + {g};
      }
      assert seen == servers.Keys;
      assert (set g | g in seen && uid in Bad(servers[g])) == ServersListing(servers, uid);
      assert ServersListing(servers, uid) <= servers.Keys;
      assert |ServersListing(servers, uid)| <= |servers.Keys| by {
        SubsetCard(ServersListing(servers, uid), servers.Keys);
      }
      return Some(UserData(gban, count));
    }

    /** `clear_user_data` keeps everything, by design. */
    method ClearUserData(uid: int)
      ensures servers == old(servers) && banned == old(banned) && optedIn == old(optedIn)
    {
    }

    /**
     * `clear_user_data_full`: drops the global ban, then the user's strikes in
     * every server; a server without a `badusers` dict raises KeyError part way
     * through (false), leaving each server either cleared or untouched.
     */
    method ClearUserDataFull(uid: int) returns (ok: bool)
      requires Valid()
      modifies this
      ensures Valid() && optedIn == old(optedIn)
      ensures banned == old(banned) - {uid}
      ensures servers.Keys == old(servers).Keys
      ensures ok <==> forall g :: g in old(servers) ==> old(servers)[g].badusers.Some?
      ensures ok ==> forall g :: g in servers ==> uid !in Bad(servers[g])
      ensures forall g :: g in servers ==>
        servers[g] == old(servers)[g] || servers[g] == old(servers)[g].(badusers := Some(Bad(old(servers)[g]) - {uid}))
      ensures forall g, u :: g in servers && u != uid ==> Strikes(servers, g, u) == Strikes(old(servers), g, u)
    {
      banned := banned - {uid};
      var todo := servers.Keys;
      ghost var orig := servers;
      while todo != {}
        invariant todo <= servers.Keys && servers.Keys == orig.Keys
        invariant forall g :: g in todo ==> servers[g] == orig[g]
        invariant forall g :: g in servers && g !in todo ==>
          orig[g].badusers.Some? && servers[g] == orig[g].(badusers := Some(Bad(orig[g]) - {uid}))
        invariant banned == old(banned) - {uid} && optedIn == old(optedIn)
        invariant forall s, k :: s in servers && k in servers[s].roles ==> servers[s].roles[k] == orig[s].roles[k]
        decreases |todo|
      {
        ghost var w := SetMember(todo);
        var g :| g in todo;
        if servers[g].badusers.None? {
          return false;
        }
        servers := servers[g := servers[g].(badusers := Some(servers[g].badusers.value - {uid}))];
        todo := todo - {g};
      }
      return true;
    }
  }

  /**
   * Reading the update channel of a server the settings have never seen
   * stores an entry without a `badusers` dict, and from then on the
   * user-data report raises KeyError.
   */
  method ChannelReadBreaksUserData() returns (before: Option<UserData>, after: Option<UserData>)
    ensures before == Some(UserData("", 0)) && after == None
  {
    var s := new BadUserSettings();
    assert ServersListing(s.servers, 1) == {};
    before := s.GetUserData(1);
    var channel := s.GetChannel(5);
    assert s.servers[5].badusers.None?;
    after := s.GetUserData(1);
  }

  // ------------------------------------------------------ check_punishment

  datatype RoleEvent = BadUserDetected(role: int) | RoleAdded(role: int, ping: bool) | RoleRemoved(role: int, ping: bool)

  /** What one added role triggers: punishment before positive before neutral. */
  function AddedClass(r: int, punishment: seq<int>, positive: seq<int>, neutral: seq<int>): Option<RoleEvent> {
    if r in punishment then Some(BadUserDetected(r))
    else if r in positive then Some(RoleAdded(r, true))
    else if r in neutral then Some(RoleAdded(r, false))
    else None
  }

  /** What one removed role triggers: positive before neutral; punishment does not count. */
  function RemovedClass(r: int, positive: seq<int>, neutral: seq<int>): Option<RoleEvent> {
    if r in positive then Some(RoleRemoved(r, true))
    else if r in neutral then Some(RoleRemoved(r, false))
    else None
  }

  /**
   * `check_punishment`: nothing when the server has not opted in or the role
   * lists are equal; else the first classified role among the added ones
   * (in the set's iteration order, which the model leaves open), and only if
   * none of those classifies, the first among the removed ones.
   */
  method CheckPunishment(enabled: bool, before: seq<int>, after: seq<int>,
                         punishment: seq<int>, positive: seq<int>, neutral: seq<int>)
    returns (e: Option<RoleEvent>)
    ensures !enabled || before == after ==> e.None?
    ensures var added := set r | r in after && r !in before;
      var removed := set r | r in before && r !in after;
      enabled && before != after ==>
        (e.None? <==>
          (forall r :: r in added ==> AddedClass(r, punishment, positive, neutral).None?) &&
          (forall r :: r in removed ==> RemovedClass(r, positive, neutral).None?)) &&
        (e.Some? && (e.value.BadUserDetected? || e.value.RoleAdded?) ==>
          e.value.role in added && e == AddedClass(e.value.role, punishment, positive, neutral)) &&
        (e.Some? && e.value.RoleRemoved? ==>
          e.value.role in removed && e == RemovedClass(e.value.role, positive, neutral) &&
          forall r :: r in added ==> AddedClass(r, punishment, positive, neutral).None?)
  {
    if !enabled || before == after {
      return None;
    }
    var added := set r | r in after && r !in before;
    var removed := set r | r in before && r !in after;
    var todo := added;
    while todo != {}
      invariant todo <= added
      invariant forall r :: r in added - todo ==> AddedClass(r, punishment, positive, neutral).None?
      decreases |todo|
    {
      ghost var w := SetMember(todo);
      var r :| r in todo;
      var c := AddedClass(r, punishment, positive, neutral);
      if c.Some? {
        return c;
      }
      todo := todo - {r};
    }
    todo := removed;
    while todo != {}
      invariant todo <= removed
      invariant forall r :: r in removed - todo ==> RemovedClass(r, positive, neutral).None?
      decreases |todo|
    {
      ghost var w := SetMember(todo);
      var r :| r in todo;
      var c := RemovedClass(r, positive, neutral);
      if c.Some? {
        return c;
      }
      todo := todo - {r};
    }
    return None;
  }
}
