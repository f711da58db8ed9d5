/**
 * Menu friends: each user keeps a list of friend ids that other cogs can
 * query.
 */
module Friend {
  import opened Common

  /** The stored `friends` lists, by user id. */
  class FriendStore {
    var friends: map<int, seq<int>>

    /** No list holds an id twice. */
    predicate Valid()
      reads this
    {
      forall a :: a in friends ==> NoDup(friends[a])
    }

    constructor ()
      ensures Valid() && friends == map[]
    {
      friends := map[];
    }

    /** `get_friends`: the stored list, empty by default. */
    function GetFriends(author: int): (r: seq<int>)
      reads this
      ensures author in friends ==> r == friends[author]
      ensures author !in friends ==> r == []
    {
      if author in friends then friends[author] else []
    }

    /** `is_friend`: whether `user` is in the author's list. */
    function IsFriend(author: int, user: int): (r: bool)
      reads this
      ensures r <==> author in friends && user in friends[author]
    {
      user in GetFriends(author)
    }

    /** `menufriend add`: refuses an id already present, otherwise appends it. */
    method Add(author: int, friend: int) returns (added: bool)
      requires Valid()
      modifies this
      ensures Valid()
      ensures added <==> !old(IsFriend(author, friend))
      ensures !added ==> friends == old(friends)
      ensures added ==> friends == old(friends)[author := old(GetFriends(author)) + [friend]]
      ensures IsFriend(author, friend)
      ensures forall a :: a != author ==> GetFriends(a) == old(GetFriends(a))
    {
      var list := GetFriends(author);
      if friend in list {
        return false;
      }
      AppendNoDup(list, friend);
      friends := friends[author := list + [friend]];
      added := true;
    }

    /** `menufriend remove`: refuses an absent id, otherwise removes it. */
    method Remove(author: int, friend: int) returns (removed: bool)
      requires Valid()
      modifies this
      ensures Valid()
      ensures removed <==> old(IsFriend(author, friend))
      ensures !removed ==> friends == old(friends)
      ensures removed ==> friends == old(friends)[author := RemoveFirst(old(GetFriends(author)), friend)]
      ensures !IsFriend(author, friend)
      ensures forall u :: u != friend ==> (IsFriend(author, u) <==> old(IsFriend(author, u)))
      ensures forall a :: a != author ==> GetFriends(a) == old(GetFriends(a))
    {
      var list := GetFriends(author);
      if friend !in list {
        return false;
      }
      RemoveFirstNoDup(list, friend);
      forall u | u != friend
        ensures u in RemoveFirst(list, friend) <==> u in list
      {
        RemoveFirstMembers(list, friend, u);
      }
      friends := friends[author := RemoveFirst(list, friend)];
      removed := true;
    }
  }
}
