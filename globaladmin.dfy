/**
 * Global admin permissions: cogs register named perms with a default, and
 * the owner sets per-user overrides. A perm check looks at the user's
 * override first, then the registered default, then the caller's fallback.
 *
 * Settings persistence is not modelled; each method's new state is what
 * would be saved.
 */
module GlobalAdmin {
  import opened Common

  type Perms = map<string, bool>
  type Users = map<int, map<string, bool>>

  const INVALID_PERM := "Invalid perm name."

  /** The user's overrides, `users.get(user_id, {})`. */
  function Overrides(users: Users, uid: int): map<string, bool> {
    if uid in users then users[uid] else map[]
  }

  /**
   * `get_perm`: the registered defaults updated by the user's overrides,
   * then looked up with a fallback.
   */
  function Lookup(perms: Perms, users: Users, uid: int, perm: string, default: bool): (b: bool)
    ensures perm in Overrides(users, uid) ==> b == Overrides(users, uid)[perm]
    ensures perm !in Overrides(users, uid) && perm in perms ==> b == perms[perm]
    ensures perm !in Overrides(users, uid) && perm !in perms ==> b == default
  {
    var merged := perms + Overrides(users, uid);
    if perm in merged then merged[perm] else default
  }

  /** The users map with `uid`'s override of `perm` set to `value`. */
  function WithOverride(users: Users, uid: int, perm: string, value: bool): (u: Users)
    ensures u.Keys == users.Keys + {uid}
  {
    users[uid := Overrides(users, uid)[perm := value]]
  }

  /** Every user's overrides without `perm`. */
  function Stripped(users: Users, perm: string): (u: Users)
    ensures u.Keys == users.Keys
    ensures forall v :: v in u ==> perm !in u[v]
  {
    map v | v in users :: users[v] - {perm}
  }

  /** After a grant or deny, the user's check answers the value set, and nobody else's changes. */
  lemma OverrideDecides(perms: Perms, users: Users, uid: int, perm: string, value: bool, v: int, p: string, d: bool)
    ensures Lookup(perms, WithOverride(users, uid, perm, value), uid, perm, d) == value
    ensures (v, p) != (uid, perm) ==>
      Lookup(perms, WithOverride(users, uid, perm, value), v, p, d) == Lookup(perms, users, v, p, d)
  {
    var u := WithOverride(users, uid, perm, value);
    assert Overrides(u, uid) == Overrides(users, uid)[perm := value];
    if v != uid {
      assert Overrides(u, v) == Overrides(users, v);
    }
  }

  /** After a reset, every user's check of `perm` falls back to the registered default; other perms are untouched. */
  lemma StrippedRestoresDefault(perms: Perms, users: Users, perm: string, v: int, p: string, d: bool)
    ensures Lookup(perms, Stripped(users, perm), v, perm, d) == if perm in perms then perms[perm] else d
    ensures p != perm ==> Lookup(perms, Stripped(users, perm), v, p, d) == Lookup(perms, users, v, p, d)
  {
    assert Overrides(Stripped(users, perm), v) == Overrides(users, v) - {perm};
  }

  /** The persisted settings of the cog: registered perms and per-user overrides. */
  class GlobalAdminSettings {
    var perms: Perms
    var users: Users

    constructor ()
      ensures perms == map[] && users == map[]
    {
      perms := map[];
      users := map[];
    }

    /** `add_user_perm`: -1 (here `invalid`) for an unregistered perm, else sets the override. */
    method AddUserPerm(uid: int, perm: string, value: bool) returns (invalid: bool)
      modifies this
      ensures invalid <==> perm !in old(perms)
      ensures perms == old(perms)
      ensures invalid ==> users == old(users)
      ensures !invalid ==> users == WithOverride(old(users), uid, perm, value)
    {
      if perm !in perms {
        return true;
      }
      if uid !in users {
        users := users[uid := map[]];
      }
      users := users[uid := users[uid][perm := value]];
      invalid := false;
    }

    /** `add_perm`: registers (or re-registers) a perm with its default. */
    method AddPerm(perm: string, default: bool)
      modifies this
      ensures perms == old(perms)[perm := default] && users == old(users)
    {
      perms := perms[perm := default];
    }

    /** `rm_perm`: drops the registration if there is one. */
    method RmPerm(perm: string)
      modifies this
      ensures perms == old(perms) - {perm} && users == old(users)
    {
      if perm in perms {
        perms := perms - {perm};
      }
    }

    /** `refresh_perm`: removes `perm` from every user's overrides. */
    method RefreshPerm(perm: string)
      modifies this
      ensures perms == old(perms)
      ensures users == Stripped(old(users), perm)
    {
      ghost var before := users;
      var todo := users.Keys;
      while todo != {}
        invariant perms == old(perms) && before == old(users)
        invariant todo <= before.Keys
        invariant users.Keys == before.Keys
        invariant forall v :: v in users ==> users[v] == if v in todo then before[v] else before[v] - {perm}
        decreases todo
      {
        ghost var w := SetMember(todo);
        var v :| v in todo;
        if perm in users[v] {
          users := users[v := users[v] - {perm}];
        } else {
          assert users[v] - {perm} == users[v];
        }
        todo := todo - {v};
      }
      assert forall v :: v in users ==> users[v] == Stripped(before, perm)[v];
    }

    /** `rm_user_perm`: -1 for an unregistered perm; otherwise removes the override if there is one. */
    method RmUserPerm(uid: int, perm: string) returns (invalid: bool)
      modifies this
      ensures invalid <==> perm !in old(perms)
      ensures perms == old(perms)
      ensures invalid || uid !in old(users) ==> users == old(users)
      ensures !invalid && uid in old(users) ==> users == old(users)[uid := old(users)[uid] - {perm}]
    {
      if perm !in perms {
        return true;
      }
      invalid := false;
      if uid !in users {
        return;
      }
      if perm !in users[uid] {
        assert users[uid] - {perm} == users[uid];
        return;
      }
      users := users[uid := users[uid] - {perm}];
    }

    /** `get_perm`, which `auth_check` calls. */
    function GetPerm(uid: int, perm: string, default: bool): (r: bool)
      reads this
      ensures perm in Overrides(users, uid) ==> r == Overrides(users, uid)[perm]
      ensures perm !in Overrides(users, uid) && perm in perms ==> r == perms[perm]
      ensures perm !in Overrides(users, uid) && perm !in perms ==> r == default
    {
      Lookup(perms, users, uid, perm, default)
    }

    /** `get_users_with_perm`: exactly the users with an override of `perm`, each once. */
    method GetUsersWithPerm(perm: string) returns (out: seq<int>)
      ensures NoDup(out)
      ensures forall v :: v in out <==> v in users && perm in users[v]
    {
      out := [];
      var todo := users.Keys;
      while todo != {}
        invariant todo <= users.Keys
        invariant NoDup(out)
        invariant forall v :: v in out <==> v in users && v !in todo && perm in users[v]
        decreases todo
      {
        ghost var w := SetMember(todo);
        var v :| v in todo;
        if perm in users[v] {
          AppendNoDup(out, v);
          out := out + [v];
        }
        todo := todo - {v};
      }
    }

    /** `grant` and `deny`: the reply is the invalid-perm message exactly when the perm is unregistered. */
    method Grant(uid: int, perm: string, value: bool) returns (reply: Option<string>)
      modifies this
      ensures reply == Some(INVALID_PERM) <==> perm !in old(perms)
      ensures reply.None? <==> perm in old(perms)
      ensures perms == old(perms)
      ensures perm in old(perms) ==> users == WithOverride(old(users), uid, perm, value)
      ensures perm !in old(perms) ==> users == old(users)
    {
      var invalid := AddUserPerm(uid, perm, value);
      if invalid {
        return Some(INVALID_PERM);
      }
      reply := None;
    }

    /** `unregister`: reset the perm for every user, then drop its registration. */
    method Unregister(perm: string)
      modifies this
      ensures perms == old(perms) - {perm}
      ensures users == Stripped(old(users), perm)
    {
      RefreshPerm(perm);
      RmPerm(perm);
    }
  }
}
