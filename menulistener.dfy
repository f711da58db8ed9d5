/**
 * The menu listener cog: a registry of menu-enabled cogs, the global map from
 * menu type to (cog, menu, panes) rebuilt from it, and the reaction handler
 * that routes a click on a bot-authored menu to that menu's transition and
 * then cascades simulated clicks down the chain of child menus.
 *
 * Discord, the intra-message-state codec and the menus' own behaviour are
 * outside the model: they appear as the oracle fields of `Bot`.
 */
module MenuListener {
  import opened Common

  /** A value stored in an intra-message state (IMS) dictionary. */
  datatype Value = Text(s: string) | Num(n: int) | Null

  /** Python truthiness of an IMS value. */
  predicate Truthy(v: Value) {
    match v
    case Text(s) => |s| > 0
    case Num(n) => n != 0
    case Null => false
  }

  type Ims = map<string, Value>

  /** `dict.get(key)`, where a missing key reads as None. */
  function Get(ims: Ims, key: string): Value {
    if key in ims then ims[key] else Null
  }

  /** What a menu-enabled cog exposes: its `menu_map` of menu type to (menu class, panes class). */
  datatype MenuPair = MenuPair(menu: string, panes: string)
  datatype MenuCog = MenuCog(menus: map<string, MenuPair>, hasDefaultData: bool)

  /** An entry of the listener's own `menu_map`: the owning cog's name prepended. */
  datatype Entry = Entry(cogName: string, menu: string, panes: string)

  /** A message as the handler sees it; `ims` is `embeds and extract_data(embeds[0])`, None when that is not a dict. */
  datatype Message = Message(id: int, authorIsBot: bool, reactions: seq<string>, ims: Option<Ims>)

  /** The reaction filters handed to `should_respond`. */
  datatype Filters = Filters(validEmojis: set<string>, originalAuthor: Value, friendIds: seq<Value>)

  /** The bot and the cogs it has loaded, as far as the listener can observe them. */
  datatype Bot = Bot(
    loaded: map<string, MenuCog>,
    defaultEmojis: set<string>,
    emojiNames: string -> set<string>,
    hasChildDataFunc: (string, string) -> bool,
    childData: (string, string, Ims, Ims) -> (Option<string>, Ims),
    defaultData: (string, Ims) -> Ims,
    fetchChild: (Message, Value) -> Option<Message>,
    friendCogLoaded: bool,
    friendsOf: Value -> seq<Value>,
    shouldRespond: (string, Message, string, Filters, Value) -> bool)

  datatype MenuError = MissingImsMenuType | InvalidImsMenuType | CogNotLoaded

  datatype Result<T> = Ok(value: T) | Err(error: MenuError)

  /** The Python exceptions the handler lets escape. */
  datatype Raised = Menu(e: MenuError) | KeyErrorOriginalAuthor | NotFoundParent | AttributeErrorChildIms

  datatype Transition = Transition(messageId: int, ims: Ims, emoji: string, data: Ims)

  datatype CascadeEnd = NoChild | Failsafe | ChildNotFound | DefaultDataUnloaded | CascadeRaised(e: MenuError) | ChildImsMissing

  datatype Cascade = Cascade(iterations: nat, transitions: seq<Transition>, end: CascadeEnd)

  datatype Skip = UnknownEmoji | RemovalOutsideDm | NotBotAuthored | ReactionMissing | NoIms | NotResponding | Unloaded

  datatype Outcome = Ignored(why: Skip) | Failed(raised: Raised) | Handled(parent: Transition, cascade: Cascade)

  /** A raw reaction event; `member` is who reacted (`payload.member or get_user(payload.user_id)`). */
  datatype Payload = Payload(emoji: string, isRemove: bool, channelIsDm: bool, message: Option<Message>, member: Value)

  datatype Unregistered = NotRegisteredValueError | Removed

  const FAILSAFE: nat := 10

  // ------------------------------------------------------------ menu map

  function Tag(cogName: string, menus: map<string, MenuPair>): (m: map<string, Entry>)
    ensures m.Keys == menus.Keys
    ensures forall k :: k in m ==> m[k] == Entry(cogName, menus[k].menu, menus[k].panes)
  {
    map k | k in menus :: Entry(cogName, menus[k].menu, menus[k].panes)
  }

  /** The `menu_map` that `reload` builds from the registered cog names, in list order. */
  function BuildMenuMap(cogs: seq<string>, loaded: map<string, MenuCog>): (r: map<string, Entry>)
    ensures forall k :: k in r ==> r[k].cogName in cogs && r[k].cogName in loaded && k in loaded[r[k].cogName].menus
  {
    if |cogs| == 0 then map[]
    else
      var m := BuildMenuMap(cogs[..|cogs| - 1], loaded);
      var last := cogs[|cogs| - 1];
      if last in loaded then m + Tag(last, loaded[last].menus) else m
  }

  /** One more registered cog: its menus are added over the earlier ones when it is loaded. */
  lemma BuildMenuMapStep(cogs: seq<string>, loaded: map<string, MenuCog>, i: nat)
    requires i < |cogs|
    ensures cogs[..i + 1] == cogs[..i] + [cogs[i]]
    ensures BuildMenuMap(cogs[..i + 1], loaded) ==
      if cogs[i] in loaded then BuildMenuMap(cogs[..i], loaded) + Tag(cogs[i], loaded[cogs[i]].menus)
      else BuildMenuMap(cogs[..i], loaded)
  {
    assert cogs[..i + 1][..i] == cogs[..i];
  }

  predicate Declares(cogs: seq<string>, loaded: map<string, MenuCog>, i: int, menuType: string) {
    0 <= i < |cogs| && cogs[i] in loaded && menuType in loaded[cogs[i]].menus
  }

  /** Reference definition: the last registered, loaded cog that declares `menuType`. */
  function LastDeclarer(cogs: seq<string>, loaded: map<string, MenuCog>, menuType: string): (r: Option<nat>)
    ensures r.Some? ==> Declares(cogs, loaded, r.value, menuType)
    ensures r.Some? ==> forall j :: r.value < j < |cogs| ==> !Declares(cogs, loaded, j, menuType)
    ensures r.None? ==> forall j :: 0 <= j < |cogs| ==> !Declares(cogs, loaded, j, menuType)
  {
    if |cogs| == 0 then None
    else if Declares(cogs, loaded, |cogs| - 1, menuType) then Some(|cogs| - 1)
    else
      var r := LastDeclarer(cogs[..|cogs| - 1], loaded, menuType);
      assert forall j :: 0 <= j < |cogs| - 1 ==>
        (Declares(cogs, loaded, j, menuType) <==> Declares(cogs[..|cogs| - 1], loaded, j, menuType));
      r
  }

  /**
   * A menu type is in the rebuilt map exactly when some registered, loaded
   * cog declares it, and then its entry comes from the LAST such cog in
   * registration order.
   */
  lemma {:induction false} MenuMapLastWins(cogs: seq<string>, loaded: map<string, MenuCog>, menuType: string)
    ensures menuType in BuildMenuMap(cogs, loaded) <==> LastDeclarer(cogs, loaded, menuType).Some?
    ensures menuType in BuildMenuMap(cogs, loaded) ==>
      var i := LastDeclarer(cogs, loaded, menuType).value;
      var pair := loaded[cogs[i]].menus[menuType];
      BuildMenuMap(cogs, loaded)[menuType] == Entry(cogs[i], pair.menu, pair.panes)
  {
    if |cogs| > 0 {
      MenuMapLastWins(cogs[..|cogs| - 1], loaded, menuType);
    }
  }

  // --------------------------------------------------------- attributes

  function MenuType(ims: Ims): Value { Get(ims, "menu_type") }

  /** `get_menu_attributes`: the entry for the state's menu type, or why there is none. */
  function Attributes(menuMap: map<string, Entry>, ims: Ims): (r: Result<Entry>)
    ensures r == Err(MissingImsMenuType) <==> MenuType(ims) == Null
    ensures r == Err(InvalidImsMenuType) <==>
      MenuType(ims) != Null && !(MenuType(ims).Text? && MenuType(ims).s in menuMap)
    ensures r.Ok? <==> MenuType(ims).Text? && MenuType(ims).s in menuMap
    ensures r.Ok? ==> r.value == menuMap[MenuType(ims).s]
  {
    match MenuType(ims)
    case Null => Err(MissingImsMenuType)
    case Text(k) => if k in menuMap then Ok(menuMap[k]) else Err(InvalidImsMenuType)
    case Num(_) => Err(InvalidImsMenuType)
  }

  /** `get_menu_default_data`: the owning cog's default data, {} when it has no hook. */
  function DefaultData(bot: Bot, menuMap: map<string, Entry>, ims: Ims): (r: Result<Ims>)
    ensures Attributes(menuMap, ims).Err? ==> r == Err(Attributes(menuMap, ims).error)
    ensures Attributes(menuMap, ims).Ok? ==>
      var cog := Attributes(menuMap, ims).value.cogName;
      (r == Err(CogNotLoaded) <==> cog !in bot.loaded) &&
      (cog in bot.loaded && bot.loaded[cog].hasDefaultData ==> r == Ok(bot.defaultData(cog, ims))) &&
      (cog in bot.loaded && !bot.loaded[cog].hasDefaultData ==> r == Ok(map[]))
  {
    match Attributes(menuMap, ims)
    case Err(e) => Err(e)
    case Ok(entry) =>
      if entry.cogName !in bot.loaded then Err(CogNotLoaded)
      else if bot.loaded[entry.cogName].hasDefaultData then Ok(bot.defaultData(entry.cogName, ims))
      else Ok(map[])
  }

  // ------------------------------------------------------------ cascade

  function Prepend(t: Transition, c: Cascade): Cascade {
    c.(transitions := [t] + c.transitions)
  }

  /** What one pass of the cascade loop body does. */
  datatype Step = Stop(end: CascadeEnd) | Spin | Advance(transition: Transition, ims: Ims, message: Message)

  /**
   * One pass of the body of `listener_respond_with_child` for a state that
   * has a child link: look up the panes, ask them for the child-data
   * function, and when it yields a simulated emoji fetch the child message,
   * merge the extra state into the child's state and transition it.
   */
  function CascadeStep(bot: Bot, menuMap: map<string, Entry>, ims: Ims, message: Message, emoji: string): (r: Step)
    requires "child_message_id" in ims
    ensures Attributes(menuMap, ims).Err? ==> r == Stop(CascadeRaised(Attributes(menuMap, ims).error))
    ensures Attributes(menuMap, ims).Ok? && DefaultData(bot, menuMap, ims).Err? ==> r == Stop(DefaultDataUnloaded)
    ensures (Attributes(menuMap, ims).Ok? && DefaultData(bot, menuMap, ims).Ok? &&
             !bot.hasChildDataFunc(Attributes(menuMap, ims).value.panes, emoji)) ==> r == Spin
    ensures (Attributes(menuMap, ims).Ok? && DefaultData(bot, menuMap, ims).Ok? &&
             bot.hasChildDataFunc(Attributes(menuMap, ims).value.panes, emoji)) ==>
      var data := DefaultData(bot, menuMap, ims).value;
      var (simulated, extra) := bot.childData(Attributes(menuMap, ims).value.panes, emoji, ims, data);
      var fetched := bot.fetchChild(message, ims["child_message_id"]);
      (simulated.None? ==> r == Spin) &&
      (simulated.Some? && fetched.None? ==> r == Stop(ChildNotFound)) &&
      (simulated.Some? && fetched.Some? && fetched.value.ims.None? ==> r == Stop(ChildImsMissing)) &&
      (simulated.Some? && fetched.Some? && fetched.value.ims.Some? ==>
        var merged := fetched.value.ims.value + extra;
        (Attributes(menuMap, merged).Err? ==> r == Stop(CascadeRaised(Attributes(menuMap, merged).error))) &&
        (Attributes(menuMap, merged).Ok? ==>
          r == Advance(Transition(fetched.value.id, merged, simulated.value, data), merged, fetched.value)))
    ensures r.Advance? ==>
      bot.hasChildDataFunc(Attributes(menuMap, ims).value.panes, emoji) &&
      bot.fetchChild(message, ims["child_message_id"]) == Some(r.message) &&
      Attributes(menuMap, r.ims).Ok? &&
      r.transition == Transition(r.message.id, r.ims, r.transition.emoji, DefaultData(bot, menuMap, ims).value)
  {
    match Attributes(menuMap, ims)
    case Err(e) => Stop(CascadeRaised(e))
    case Ok(entry) =>
      match DefaultData(bot, menuMap, ims)
      case Err(_) => Stop(DefaultDataUnloaded)
      case Ok(data) =>
        var (simulated, extra) :=
          if bot.hasChildDataFunc(entry.panes, emoji) then bot.childData(entry.panes, emoji, ims, data)
          else (None, map[]);
        if simulated.None? then Spin
        else
          match bot.fetchChild(message, ims["child_message_id"])
          case None => Stop(ChildNotFound)
          case Some(child) =>
            match child.ims
            case None => Stop(ChildImsMissing)
            case Some(childIms) =>
              var merged := childIms + extra;
              match Attributes(menuMap, merged)
              case Err(e) => Stop(CascadeRaised(e))
              case Ok(_) => Advance(Transition(child.id, merged, simulated.value, data), merged, child)
  }

  /**
   * The cascade from iteration `done` on: follow `child_message_id` links,
   * for at most FAILSAFE iterations.
   */
  function CascadeFrom(bot: Bot, menuMap: map<string, Entry>, ims: Ims, message: Message, emoji: string, done: nat): (r: Cascade)
    requires done <= FAILSAFE
    ensures done <= r.iterations <= FAILSAFE
    decreases FAILSAFE - done
  {
    if !Truthy(Get(ims, "child_message_id")) then Cascade(done, [], NoChild)
    else if done == FAILSAFE then Cascade(done, [], Failsafe)
    else
      match CascadeStep(bot, menuMap, ims, message, emoji)
      case Stop(end) => Cascade(done + 1, [], end)
      case Spin => CascadeFrom(bot, menuMap, ims, message, emoji, done + 1)
      case Advance(t, next, child) => Prepend(t, CascadeFrom(bot, menuMap, next, child, emoji, done + 1))
  }

  /** One iteration of the cascade, as the loop body takes it. */
  lemma CascadeFromStep(bot: Bot, menuMap: map<string, Entry>, ims: Ims, message: Message, emoji: string, done: nat)
    requires done < FAILSAFE && Truthy(Get(ims, "child_message_id"))
    ensures var st, c := CascadeStep(bot, menuMap, ims, message, emoji), CascadeFrom(bot, menuMap, ims, message, emoji, done);
      (st.Stop? ==> c == Cascade(done + 1, [], st.end)) &&
      (st.Spin? ==> c == CascadeFrom(bot, menuMap, ims, message, emoji, done + 1)) &&
      (st.Advance? ==> c == Prepend(st.transition, CascadeFrom(bot, menuMap, st.ims, st.message, emoji, done + 1)))
  {
  }

  /** The cascade never runs more than FAILSAFE iterations and makes at most one transition per iteration. */
  lemma {:induction false} CascadeBounded(bot: Bot, menuMap: map<string, Entry>, ims: Ims, message: Message, emoji: string, done: nat)
    requires done <= FAILSAFE
    ensures var c := CascadeFrom(bot, menuMap, ims, message, emoji, done);
      done <= c.iterations <= FAILSAFE && |c.transitions| <= c.iterations - done
    decreases FAILSAFE - done
  {
    if Truthy(Get(ims, "child_message_id")) && done < FAILSAFE {
      match CascadeStep(bot, menuMap, ims, message, emoji)
      case Stop(_) =>
      case Spin => CascadeBounded(bot, menuMap, ims, message, emoji, done + 1);
      case Advance(_, next, child) => CascadeBounded(bot, menuMap, next, child, emoji, done + 1);
    }
  }

  /**
   * When the current menu has a child link but its panes offer no child-data
   * function for the clicked emoji, nothing advances: the loop spins until the
   * failsafe and makes no transition.
   */
  lemma {:induction false} CascadeSpinsWithoutChildFunc(bot: Bot, menuMap: map<string, Entry>, ims: Ims, message: Message, emoji: string, done: nat)
    requires done <= FAILSAFE
    requires Truthy(Get(ims, "child_message_id"))
    requires Attributes(menuMap, ims).Ok? && DefaultData(bot, menuMap, ims).Ok?
    requires !bot.hasChildDataFunc(Attributes(menuMap, ims).value.panes, emoji)
    ensures CascadeFrom(bot, menuMap, ims, message, emoji, done) == Cascade(FAILSAFE, [], Failsafe)
    decreases FAILSAFE - done
  {
    if done < FAILSAFE {
      CascadeSpinsWithoutChildFunc(bot, menuMap, ims, message, emoji, done + 1);
    }
  }

  /**
   * Every transition of the cascade is applied to a fetched child message
   * whose state the map knows, with that child's own state.
   */
  lemma {:induction false} CascadeTransitionsResolve(bot: Bot, menuMap: map<string, Entry>, ims: Ims, message: Message, emoji: string, done: nat)
    requires done <= FAILSAFE
    ensures forall t :: t in CascadeFrom(bot, menuMap, ims, message, emoji, done).transitions ==>
      Attributes(menuMap, t.ims).Ok?
    decreases FAILSAFE - done
  {
    if Truthy(Get(ims, "child_message_id")) && done < FAILSAFE {
      match CascadeStep(bot, menuMap, ims, message, emoji)
      case Stop(_) =>
      case Spin => CascadeTransitionsResolve(bot, menuMap, ims, message, emoji, done + 1);
      case Advance(_, next, child) => CascadeTransitionsResolve(bot, menuMap, next, child, emoji, done + 1);
    }
  }

  // ----------------------------------------------------------- registry

  /** The listener cog's state: the persisted list of registered cog names and the derived menu map. */
  class Registry {
    var cogs: seq<string>
    var menuMap: map<string, Entry>
    var completed: bool

    constructor ()
      ensures cogs == [] && menuMap == map[] && !completed
    {
      cogs := [];
      menuMap := map[];
      completed := false;
    }

    /** `register`: register the cog's class name once, mark the map stale, reload. */
    method Register(name: string, loaded: map<string, MenuCog>)
      modifies this
      ensures cogs == if name in old(cogs) then old(cogs) else old(cogs) + [name]
      ensures menuMap == BuildMenuMap(cogs, loaded)
      ensures completed <==> forall c :: c in cogs ==> c in loaded
    {
      if name !in cogs {
        cogs := cogs + [name];
      }
      completed := false;
      Reload(loaded);
    }

    /**
     * `reload`: unless the map is already complete, rebuild it from every
     * registered cog that is loaded, in registration order; the map is
     * complete only when every registered cog was found.
     */
    method Reload(loaded: map<string, MenuCog>)
      modifies this
      ensures cogs == old(cogs)
      ensures old(completed) ==> menuMap == old(menuMap) && completed
      ensures !old(completed) ==> menuMap == BuildMenuMap(cogs, loaded)
      ensures !old(completed) ==> (completed <==> forall c :: c in cogs ==> c in loaded)
    {
      if completed {
        return;
      }
      menuMap := map[];
      completed := true;
      var i := 0;
      while i < |cogs|
        invariant 0 <= i <= |cogs| && cogs == old(cogs)
        invariant menuMap == BuildMenuMap(cogs[..i], loaded)
        invariant completed <==> forall c :: c in cogs[..i] ==> c in loaded
      {
        var name := cogs[i];
        BuildMenuMapStep(cogs, loaded, i);
        if name !in loaded {
          completed := false;
        } else {
          menuMap := menuMap + Tag(name, loaded[name].menus);
        }
        i := i + 1;
      }
      assert cogs[..i] == cogs;
    }

    /**
     * `unregister`: an unknown name is reported and then `list.remove`
     * raises ValueError; a known one is removed. The menu map is not touched.
     */
    method Unregister(name: string) returns (r: Unregistered)
      modifies this
      ensures r == NotRegisteredValueError <==> name !in old(cogs)
      ensures cogs == RemoveFirst(old(cogs), name)
      ensures menuMap == old(menuMap) && completed == old(completed)
    {
      if name !in cogs {
        return NotRegisteredValueError;
      }
      cogs := RemoveFirst(cogs, name);
      return Removed;
    }

    /**
     * `get_emoji_clicked`: the emoji is worth handling when it is one of the
     * default menu emojis or some registered panes class lists it.
     */
    method EmojiClicked(emoji: string, bot: Bot) returns (r: Option<string>)
      ensures r.Some? ==> r.value == emoji
      ensures r.Some? <==> (emoji in bot.defaultEmojis ||
                           exists k :: k in menuMap && emoji in bot.emojiNames(menuMap[k].panes))
    {
      if emoji in bot.defaultEmojis {
        return Some(emoji);
      }
      var todo := menuMap.Keys;
      while todo != {}
        invariant todo <= menuMap.Keys
        invariant forall k :: k in menuMap && k !in todo ==> emoji !in bot.emojiNames(menuMap[k].panes)
        decreases |todo|
      {
        var k :| k in todo;
        if emoji in bot.emojiNames(menuMap[k].panes) {
          return Some(emoji);
        }
        todo := todo - {k};
      }
      return None;
    }

    /**
     * `listener_respond_with_child`: the cascade loop, proved to follow
     * `CascadeFrom` from its first iteration.
     */
    method RespondWithChild(bot: Bot, ims0: Ims, message0: Message, emoji: string) returns (c: Cascade)
      ensures c == CascadeFrom(bot, menuMap, ims0, message0, emoji, 0)
      ensures c.iterations <= FAILSAFE
    {
      CascadeBounded(bot, menuMap, ims0, message0, emoji, 0);
      var ims, message := ims0, message0;
      var failsafe: nat := 0;
      var done: seq<Transition> := [];
      while Truthy(Get(ims, "child_message_id"))
        invariant failsafe <= FAILSAFE
        invariant CascadeFrom(bot, menuMap, ims0, message0, emoji, 0) ==
          var rest := CascadeFrom(bot, menuMap, ims, message, emoji, failsafe);
          rest.(transitions := done + rest.transitions)
        decreases FAILSAFE - failsafe
      {
        if failsafe == FAILSAFE {
          return Cascade(failsafe, done, Failsafe);
        }
        var step := CascadeStep(bot, menuMap, ims, message, emoji);
        CascadeFromStep(bot, menuMap, ims, message, emoji, failsafe);
        match step {
          case Stop(end) =>
            return Cascade(failsafe + 1, done, end);
          case Spin =>
          case Advance(t, next, child) =>
            ConcatAssoc(done, [t], CascadeFrom(bot, menuMap, next, child, emoji, failsafe + 1).transitions);
            done := done + [t];
            ims, message := next, child;
        }
        failsafe := failsafe + 1;
      }
      return Cascade(failsafe, done, NoChild);
    }

    /** `get_user_reaction_filters`: KeyError when the state names no original author. */
    function ReactionFilters(bot: Bot, ims: Ims, entry: Entry): (r: Option<Filters>)
      ensures r.None? <==> "original_author_id" !in ims
      ensures r.Some? ==> r.value.originalAuthor == ims["original_author_id"] &&
                          r.value.validEmojis == bot.emojiNames(entry.panes)
      ensures r.Some? && !bot.friendCogLoaded ==> r.value.friendIds == []
      ensures r.Some? && bot.friendCogLoaded ==> r.value.friendIds == bot.friendsOf(ims["original_author_id"])
    {
      if "original_author_id" !in ims then None
      else
        var author := ims["original_author_id"];
        Some(Filters(bot.emojiNames(entry.panes), author,
                     if bot.friendCogLoaded then bot.friendsOf(author) else []))
    }

    /** `get_emoji_clicked`'s test: a default emoji, or one some mapped panes class lists. */
    predicate Known(bot: Bot, emoji: string)
      reads this
    {
      emoji in bot.defaultEmojis || exists k :: k in menuMap && emoji in bot.emojiNames(menuMap[k].panes)
    }

    /** The reaction passed every guard of the handler before the menu state is read. */
    predicate ReachesState(bot: Bot, p: Payload)
      reads this
    {
      Known(bot, p.emoji) && !(p.isRemove && !p.channelIsDm) && p.message.Some? &&
      p.message.value.authorIsBot && p.emoji in p.message.value.reactions &&
      p.message.value.ims.Some? && |p.message.value.ims.value| > 0
    }

    /**
     * `on_raw_reaction_update`: the guard pipeline in front of a menu
     * transition, then the cascade into child menus. Each guard's outcome
     * is stated in the order the handler tests them.
     */
    method OnReaction(bot: Bot, p: Payload) returns (o: Outcome)
      ensures o == Ignored(UnknownEmoji) <==> !Known(bot, p.emoji)
      ensures Known(bot, p.emoji) && p.isRemove && !p.channelIsDm ==> o == Ignored(RemovalOutsideDm)
      ensures Known(bot, p.emoji) && !(p.isRemove && !p.channelIsDm) && p.message.None? ==>
        o == Failed(NotFoundParent)
      ensures Known(bot, p.emoji) && !(p.isRemove && !p.channelIsDm) && p.message.Some? ==>
        var m := p.message.value;
        (!m.authorIsBot ==> o == Ignored(NotBotAuthored)) &&
        (m.authorIsBot && p.emoji !in m.reactions ==> o == Ignored(ReactionMissing)) &&
        (m.authorIsBot && p.emoji in m.reactions && (m.ims.None? || |m.ims.value| == 0) ==> o == Ignored(NoIms))
      ensures ReachesState(bot, p) ==>
        var m := p.message.value;
        var ims := m.ims.value;
        var attributes := Attributes(menuMap, ims);
        (attributes.Err? ==> o == Failed(Menu(attributes.error))) &&
        (attributes.Ok? ==>
          var filters := ReactionFilters(bot, ims, attributes.value);
          (filters.None? ==> o == Failed(KeyErrorOriginalAuthor)) &&
          (filters.Some? ==>
            var responds := bot.shouldRespond(attributes.value.menu, m, p.emoji, filters.value, p.member);
            (!responds ==> o == Ignored(NotResponding)) &&
            (responds && DefaultData(bot, menuMap, ims).Err? ==> o == Ignored(Unloaded)) &&
            (responds && DefaultData(bot, menuMap, ims).Ok? ==>
              o == Handled(Transition(m.id, ims, p.emoji, DefaultData(bot, menuMap, ims).value["reaction" := Text(p.emoji)]),
                           CascadeFrom(bot, menuMap, ims, m, p.emoji, 0)))))
      ensures o.Handled? ==> ReachesState(bot, p)
    {
      var clicked := EmojiClicked(p.emoji, bot);
      if clicked.None? {
        return Ignored(UnknownEmoji);
      }
      if p.isRemove && !p.channelIsDm {
        return Ignored(RemovalOutsideDm);
      }
      if p.message.None? {
        return Failed(NotFoundParent);
      }
      var message := p.message.value;
      if !message.authorIsBot {
        return Ignored(NotBotAuthored);
      }
      if p.emoji !in message.reactions {
        return Ignored(ReactionMissing);
      }
      if message.ims.None? || |message.ims.value| == 0 {
        return Ignored(NoIms);
      }
      var ims := message.ims.value;
      var attributes := Attributes(menuMap, ims);
      if attributes.Err? {
        return Failed(Menu(attributes.error));
      }
      var filters := ReactionFilters(bot, ims, attributes.value);
      if filters.None? {
        return Failed(KeyErrorOriginalAuthor);
      }
      if !bot.shouldRespond(attributes.value.menu, message, p.emoji, filters.value, p.member) {
        return Ignored(NotResponding);
      }
      var data := DefaultData(bot, menuMap, ims);
      if data.Err? {
        return Ignored(Unloaded);
      }
      var parent := Transition(message.id, ims, p.emoji, data.value["reaction" := Text(p.emoji)]);
      var cascade := RespondWithChild(bot, ims, message, p.emoji);
      return Handled(parent, cascade);
    }
  }
}
