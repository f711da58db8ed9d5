/**
 * Global stickers: named image links, some grouped into packs by a
 * two-word name ("whale happy" belongs to pack "whale"). A message made
 * of the bot's first prefix and a sticker name is answered with that
 * sticker's image.
 */
module Stickers {
  import opened Common

  datatype AddOutcome = TooManySpaces | StandardCommand | Added

  /** `add`'s arguments: without a link the second argument is the link, otherwise the name is two words. */
  function AddName(command: string, subcommand: string, link: Option<string>): (r: (string, string))
    ensures link.None? ==> r == (command, subcommand)
    ensures link.Some? ==> r == (command + " " + subcommand, link.value)
  {
    if link.None? then (command, subcommand) else (command + " " + subcommand, link.value)
  }

  /** `s.split(" ")[0]`: the text before the first space. */
  function FirstWord(s: string): (w: string)
    ensures w <= s && ' ' !in w
    ensures |w| < |s| ==> s[|w|] == ' '
  {
    if |s| == 0 || s[0] == ' ' then "" else [s[0]] + FirstWord(s[1..])
  }

  // ---------------------------------------------------------------- packs

  /** The last space among positions 1..p. */
  function SpaceAtOrBefore(s: string, p: nat): (r: Option<nat>)
    requires p < |s|
    ensures r.Some? ==> 1 <= r.value <= p && s[r.value] == ' ' && forall i :: r.value < i <= p ==> s[i] != ' '
    ensures r.None? ==> forall i :: 1 <= i <= p ==> s[i] != ' '
  {
    if p == 0 then None
    else if s[p] == ' ' then Some(p)
    else SpaceAtOrBefore(s, p - 1)
  }

  /**
   * `re.fullmatch(r'(.+) (.+)', s)`: no newline anywhere, and the greedy
   * first group ends at the last space that leaves both groups non-empty.
   */
  function PackSplit(s: string): (r: Option<(string, string)>)
    ensures r.None? <==> '\n' in s || forall i :: 1 <= i < |s| - 1 ==> s[i] != ' '
    ensures r.Some? ==> (
      var grp := r.value.0;
      var item := r.value.1;
      s == grp + " " + item && |grp| > 0 && |item| > 0 &&
      forall i :: 0 <= i < |item| - 1 ==> item[i] != ' ')
  {
    if '\n' in s || |s| < 3 then None
    else
      var p := SpaceAtOrBefore(s, |s| - 2);
      if p.None? then None
      else
        var grp := s[..p.value];
        var item := s[p.value + 1..];
        assert s == grp + " " + item;
        assert forall i :: 0 <= i < |item| - 1 ==> item[i] == s[p.value + 1 + i];
        Some((grp, item))
  }

  /** The names that belong to no pack, in iteration order. */
  function Plain(names: seq<string>): seq<string>
  {
    if |names| == 0 then []
    else
      var n := names[|names| - 1];
      Plain(names[..|names| - 1]) + (if PackSplit(n).None? then [n] else [])
  }

  /** The pack names, each once, in order of first appearance. */
  function PackNames(names: seq<string>): seq<string>
  {
    if |names| == 0 then []
    else
      var init := PackNames(names[..|names| - 1]);
      var sp := PackSplit(names[|names| - 1]);
      if sp.Some? && sp.value.0 !in init then init + [sp.value.0] else init
  }

  /** The items of each pack, in iteration order. */
  function Packs(names: seq<string>): map<string, seq<string>>
  {
    if |names| == 0 then map[]
    else
      var m := Packs(names[..|names| - 1]);
      var sp := PackSplit(names[|names| - 1]);
      if sp.None? then m
      else m[sp.value.0 := (if sp.value.0 in m then m[sp.value.0] else []) + [sp.value.1]]
  }

  /** A name is listed plainly exactly when it is no pack member. */
  lemma {:induction false} PlainMembers(names: seq<string>, x: string)
    ensures x in Plain(names) <==> x in names && PackSplit(x).None?
  {
    if |names| > 0 {
      var init := names[..|names| - 1];
      PlainMembers(init, x);
      assert names == init + [names[|names| - 1]];
    }
  }

  /** `b` is listed under pack `a` exactly when "a b" is a name that splits that way. */
  lemma {:induction false} PackMembers(names: seq<string>, a: string, b: string)
    ensures (a in Packs(names) && b in Packs(names)[a]) <==>
            (a + " " + b in names && PackSplit(a + " " + b) == Some((a, b)))
  {
    if |names| > 0 {
      var init := names[..|names| - 1];
      var n := names[|names| - 1];
      PackMembers(init, a, b);
      assert names == init + [n];
      var sp := PackSplit(n);
      if sp.Some? && sp.value.0 == a && a + " " + b == n {
        assert sp.value.1 == b by {
          assert n[|a| + 1..] == sp.value.1;
          assert (a + " " + b)[|a| + 1..] == b;
        }
      }
    }
  }

  /** The pack names are exactly the packs' keys, without repeats. */
  lemma {:induction false} PackNamesKeys(names: seq<string>)
    ensures NoDup(PackNames(names))
    ensures forall a :: a in PackNames(names) <==> a in Packs(names)
  {
    if |names| > 0 {
      var init := names[..|names| - 1];
      PackNamesKeys(init);
      var sp := PackSplit(names[|names| - 1]);
      if sp.Some? && sp.value.0 !in PackNames(init) {
        AppendNoDup(PackNames(init), sp.value.0);
      }
    }
  }

  datatype Pack = Pack(name: string, items: seq<string>)

  /** What `stickers` lists: the plain names sorted, then the packs sorted by name, each with its items sorted. */
  datatype Listing = Listing(plain: seq<string>, packs: seq<Pack>)

  function SortedPacks(order: seq<string>, m: map<string, seq<string>>): (r: seq<Pack>)
    requires forall a :: a in order ==> a in m
    ensures |r| == |order|
    ensures forall i :: 0 <= i < |r| ==> r[i] == Pack(order[i], SortStrings(m[order[i]]))
  {
    seq(|order|, i requires 0 <= i < |order| => Pack(order[i], SortStrings(m[order[i]])))
  }

  function ListingOf(names: seq<string>): (l: Listing)
    ensures SortedBy(l.plain, StrLe) && multiset(l.plain) == multiset(Plain(names))
    ensures |l.packs| == |PackNames(names)|
    ensures forall i :: 0 <= i < |l.packs| ==>
      l.packs[i].name == SortStrings(PackNames(names))[i] && l.packs[i].name in Packs(names) &&
      l.packs[i].items == SortStrings(Packs(names)[l.packs[i].name])
  {
    PackNamesKeys(names);
    var keys := SortStrings(PackNames(names));
    var m := Packs(names);
    assert forall i :: 0 <= i < |keys| ==> keys[i] in m by {
      forall i | 0 <= i < |keys| ensures keys[i] in m {
        assert keys[i] in multiset(keys);
        assert keys[i] in multiset(PackNames(names));
      }
    }
    var packs := SortedPacks(keys, m);
    Listing(SortStrings(Plain(names)), packs)
  }

  // --------------------------------------------------------------- request

  /** The embed a sticker request posts. */
  datatype Post = Post(image: string, footer: string)

  /**
   * `check_for_sticker_request`: after the first prefix, the stripped and
   * lower-cased text names a sticker.
   */
  function Request(stickers: map<string, string>, content: string, prefix: string, author: string): (r: Option<Post>)
    ensures r.Some? <==> StartsWith(content, prefix) && Lower(Strip(content[|prefix|..])) in stickers
    ensures r.Some? ==> r.value == Post(stickers[Lower(Strip(content[|prefix|..]))], content + " posted by " + author)
  {
    if !StartsWith(content, prefix) then None
    else
      var cmd := Lower(Strip(content[|prefix|..]));
      if cmd in stickers then Some(Post(stickers[cmd], content + " posted by " + author)) else None
  }

  /** A sticker is found under its name typed in any letter case. */
  lemma RequestIgnoresCase(stickers: map<string, string>, prefix: string, typed: string, author: string)
    requires Strip(typed) == typed && Lower(typed) in stickers
    ensures Request(stickers, prefix + typed, prefix, author) == Some(Post(stickers[Lower(typed)], prefix + typed + " posted by " + author))
  {
    assert (prefix + typed)[|prefix|..] == typed;
    assert (prefix + typed)[..|prefix|] == prefix;
  }

  // ----------------------------------------------------------------- store

  /** The stored stickers, with the dictionary's key order. */
  class StickerStore {
    var stickers: map<string, string>
    var order: seq<string>

    predicate Valid()
      reads this
    {
      NoDup(order) && (forall k :: k in order ==> k in stickers) && (forall k :: k in stickers ==> k in order)
    }

    constructor ()
      ensures Valid() && stickers == map[] && order == []
    {
      stickers := map[];
      order := [];
    }

    /**
     * `sticker add`: refuses a name with more than one space or whose first
     * word is a standard command; otherwise stores the lower-cased name,
     * replacing any sticker of that name in place.
     */
    method Add(command: string, subcommand: string, link: Option<string>, standard: set<string>) returns (o: AddOutcome)
      requires Valid()
      modifies this
      ensures Valid()
      ensures Count(AddName(command, subcommand, link).0, ' ') > 1 ==>
        o == TooManySpaces && stickers == old(stickers) && order == old(order)
      ensures Count(AddName(command, subcommand, link).0, ' ') <= 1 && FirstWord(Lower(AddName(command, subcommand, link).0)) in standard ==>
        o == StandardCommand && stickers == old(stickers) && order == old(order)
      ensures Count(AddName(command, subcommand, link).0, ' ') <= 1 && FirstWord(Lower(AddName(command, subcommand, link).0)) !in standard ==> (
        var (name, url) := AddName(command, subcommand, link);
        o == Added && stickers == old(stickers)[Lower(name) := url] &&
        order == if Lower(name) in old(stickers) then old(order) else old(order) + [Lower(name)])
    {
      var (name, url) := AddName(command, subcommand, link);
      if Count(name, ' ') > 1 {
        return TooManySpaces;
      }
      name := Lower(name);
      if FirstWord(name) in standard {
        return StandardCommand;
      }
      if name !in stickers {
        AppendNoDup(order, name);
        order := order + [name];
      }
      stickers := stickers[name := url];
      o := Added;
    }

    /** `sticker delete`: removes the named sticker (lower-cased, stripped) or refuses a missing one. */
    method Delete(command: string) returns (ok: bool)
      requires Valid()
      modifies this
      ensures Valid()
      ensures ok <==> Strip(Lower(command)) in old(stickers)
      ensures !ok ==> stickers == old(stickers) && order == old(order)
      ensures ok ==> stickers == old(stickers) - {Strip(Lower(command))} && order == RemoveFirst(old(order), Strip(Lower(command)))
    {
      var name := Strip(Lower(command));
      if name !in stickers {
        return false;
      }
      RemoveFirstNoDup(order, name);
      forall k | k != name
        ensures k in RemoveFirst(order, name) <==> k in order
      {
        RemoveFirstMembers(order, name, k);
      }
      order := RemoveFirst(order, name);
      stickers := stickers - {name};
      ok := true;
    }

    /** The grouping loop of `stickers`: plain names, pack names and pack items. */
    method Group() returns (plain: seq<string>, packNames: seq<string>, packs: map<string, seq<string>>)
      ensures plain == Plain(order) && packNames == PackNames(order) && packs == Packs(order)
    {
      plain, packNames, packs := [], [], map[];
      var i := 0;
      while i < |order|
        invariant 0 <= i <= |order|
        invariant plain == Plain(order[..i]) && packNames == PackNames(order[..i]) && packs == Packs(order[..i])
        decreases |order| - i
      {
        var n := order[i];
        assert order[..i + 1][..i] == order[..i];
        var sp := PackSplit(n);
        if sp.Some? {
          var grp := sp.value.0;
          if grp !in packNames {
            packNames := packNames + [grp];
          }
          packs := packs[grp := (if grp in packs then packs[grp] else []) + [sp.value.1]];
        } else {
          plain := plain + [n];
        }
        i := i + 1;
      }
      assert order[..|order|] == order;
    }

    /** `stickers`: nothing to list when there are no stickers, otherwise the sorted listing. */
    method ListStickers() returns (r: Option<Listing>)
      requires Valid()
      ensures stickers == map[] ==> r.None?
      ensures stickers != map[] ==> r == Some(ListingOf(order))
    {
      if stickers == map[] {
        return None;
      }
      var plain, packNames, packs := Group();
      PackNamesKeys(order);
      var keys := SortStrings(packNames);
      assert forall a :: a in keys ==> a in multiset(packNames);
      r := Some(Listing(SortStrings(plain), SortedPacks(keys, packs)));
    }
  }
}
