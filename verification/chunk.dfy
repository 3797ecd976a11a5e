/** gatepoint/chunks/chunk.py: a `Chunk` collects handlers in four maps
    through decorators, for a client to pick up later. */
module Chunks {
  import opened Wrappers
  import opened Json
  import opened Registry

  /** A sub-command group object, stored in `commands` as it is. */
  datatype SubCommandGroup = SubCommandGroup(name: string, description: Json, options: Json)

  /** An option attached by `add_option`. */
  datatype CommandOption = CommandOption(optionType: Json, name: string, description: string, options: Json, required: bool)

  /** A value of the `commands` map: a decorated function together with the
      options attached to it, or a sub-command group object. */
  datatype CommandEntry = Func(func: Handler, options: seq<CommandOption>) | Group(group: SubCommandGroup)

  /** The four registries. An event maps to a listener list, or to `None`
      once `list.append`'s result has been stored there. */
  datatype Chunk = Chunk(
    buttons: map<string, Handler>,
    commands: map<string, CommandEntry>,
    menus: map<string, Handler>,
    events: map<string, Option<seq<Handler>>>)

  /** `Chunk()`: four empty registries. */
  function NewChunk(): (c: Chunk)
    ensures c.buttons == map[] && c.commands == map[] && c.menus == map[] && c.events == map[]
  {
    Chunk(map[], map[], map[], map[])
  }

  /** `@chunk.button(custom_id)`: stores the function in `buttons` only. */
  function RegisterButton(c: Chunk, customId: string, func: Handler): (r: Decorated<Chunk>)
    ensures r.func == func
    ensures Stores(c.buttons, r.state.buttons, customId, func)
    ensures r.state.commands == c.commands && r.state.menus == c.menus && r.state.events == c.events
  {
    Decorated(c.(buttons := c.buttons[customId := func]), func)
  }

  /** `@chunk.menu(custom_id)`: stores the function in `menus` only. */
  function RegisterMenu(c: Chunk, customId: string, func: Handler): (r: Decorated<Chunk>)
    ensures r.func == func
    ensures Stores(c.menus, r.state.menus, customId, func)
    ensures r.state.commands == c.commands && r.state.buttons == c.buttons && r.state.events == c.events
  {
    Decorated(c.(menus := c.menus[customId := func]), func)
  }

  /** Registering the same id twice keeps only the later handler, for buttons and menus alike. */
  lemma LaterRegistrationWins(c: Chunk, customId: string, f: Handler, g: Handler)
    ensures RegisterButton(RegisterButton(c, customId, f).state, customId, g).state
         == RegisterButton(c, customId, g).state
    ensures RegisterMenu(RegisterMenu(c, customId, f).state, customId, g).state
         == RegisterMenu(c, customId, g).state
  {
    var once := RegisterButton(c, customId, g).state;
    var twice := RegisterButton(RegisterButton(c, customId, f).state, customId, g).state;
    assert twice.buttons == once.buttons;
    var onceM := RegisterMenu(c, customId, g).state;
    var twiceM := RegisterMenu(RegisterMenu(c, customId, f).state, customId, g).state;
    assert twiceM.menus == onceM.menus;
  }

  /** `@chunk.subcommand(name)`: stores the function, with no options yet, under `name`. */
  function Subcommand(c: Chunk, name: string, description: Json, options: Json, func: Handler)
    : (r: Decorated<Chunk>)
    ensures r.func == func
    ensures Stores(c.commands, r.state.commands, name, Func(func, []))
    ensures r.state.buttons == c.buttons && r.state.menus == c.menus && r.state.events == c.events
  {
    Decorated(c.(commands := c.commands[name := Func(func, [])]), func)
  }

  /** `chunk.add_subcommand_group(name)`: stores the group object itself at once. */
  function AddSubcommandGroup(c: Chunk, name: string, description: Json, options: Json): (r: Chunk)
    ensures Stores(c.commands, r.commands, name, Group(SubCommandGroup(name, description, options)))
    ensures r.buttons == c.buttons && r.menus == c.menus && r.events == c.events
  {
    c.(commands := c.commands[name := Group(SubCommandGroup(name, description, options))])
  }

  /** A later group of the same name replaces the earlier one outright. */
  lemma LaterGroupWins(c: Chunk, name: string, d1: Json, o1: Json, d2: Json, o2: Json)
    ensures AddSubcommandGroup(AddSubcommandGroup(c, name, d1, o1), name, d2, o2)
         == AddSubcommandGroup(c, name, d2, o2)
  {
    var twice := AddSubcommandGroup(AddSubcommandGroup(c, name, d1, o1), name, d2, o2);
    assert twice.commands == AddSubcommandGroup(c, name, d2, o2).commands;
  }

  /** Python truthiness of a stored event entry. */
  predicate HasListeners(entry: Option<seq<Handler>>) {
    entry.Some? && |entry.value| > 0
  }

  /** `events.get(event)`. */
  function EventEntry(c: Chunk, event: string): Option<seq<Handler>> {
    if event in c.events then c.events[event] else None
  }

  /** `@chunk.listen(event)` as written: when listeners exist it stores what
      `list.append` returns, which is `None`; otherwise the list `[func]`. */
  function ListenAsWritten(c: Chunk, event: string, func: Handler): (r: Decorated<Chunk>)
    ensures r.func == func
    ensures HasListeners(EventEntry(c, event)) ==> Stores(c.events, r.state.events, event, None)
    ensures !HasListeners(EventEntry(c, event)) ==> Stores(c.events, r.state.events, event, Some([func]))
    ensures r.state.buttons == c.buttons && r.state.commands == c.commands && r.state.menus == c.menus
  {
    var stored := if HasListeners(EventEntry(c, event)) then None else Some([func]);
    Decorated(c.(events := c.events[event := stored]), func)
  }

  /** The listener list is lost on every second registration: two listeners
      leave `None`, and a third starts over with a list of one. */
  lemma ListenAsWrittenLosesListeners(c: Chunk, event: string, f: Handler, g: Handler, h: Handler)
    requires event !in c.events
    ensures ListenAsWritten(c, event, f).state.events[event] == Some([f])
    ensures ListenAsWritten(ListenAsWritten(c, event, f).state, event, g).state.events[event] == None
    ensures ListenAsWritten(ListenAsWritten(ListenAsWritten(c, event, f).state, event, g).state, event, h)
      .state.events[event] == Some([h])
  {
  }

  /** `@chunk.listen(event)` as intended: appends `func` to the event's listeners. */
  function Listen(c: Chunk, event: string, func: Handler): (r: Decorated<Chunk>)
    ensures r.func == func
    ensures var before := EventEntry(c, event);
      Stores(c.events, r.state.events, event, Some((if before.Some? then before.value else []) + [func]))
    ensures r.state.buttons == c.buttons && r.state.commands == c.commands && r.state.menus == c.menus
  {
    var before := EventEntry(c, event);
    var listeners := if before.Some? then before.value else [];
    Decorated(c.(events := c.events[event := Some(listeners + [func])]), func)
  }

  /** Listeners accumulate in registration order, and only the event's entry changes. */
  lemma {:induction false} ListenKeepsOrder(c: Chunk, event: string, fs: seq<Handler>)
    requires event !in c.events
    requires fs != []
    ensures ListenAll(c, event, fs).events == c.events[event := Some(fs)]
    ensures ListenAll(c, event, fs) == c.(events := c.events[event := Some(fs)])
    decreases |fs|
  {
    var init := fs[..|fs| - 1];
    var last := fs[|fs| - 1];
    var before := ListenAll(c, event, init);
    assert init + [last] == fs;
    assert ListenAll(c, event, fs) == Listen(before, event, last).state;
    assert Listen(before, event, last).state.events == c.events[event := Some(init + [last])] by {
      assert before.events == if init == [] then c.events else c.events[event := Some(init)] by {
        if init != [] {
          ListenKeepsOrder(c, event, init);
        }
      }
      ListenExtends(c.events, before, event, init, last);
    }
  }

  /** One more `Listen` on an event whose listeners are `init` appends to them. */
  lemma ListenExtends(m: map<string, Option<seq<Handler>>>, c: Chunk, event: string, init: seq<Handler>, func: Handler)
    requires event !in m
    requires c.events == if init == [] then m else m[event := Some(init)]
    ensures Listen(c, event, func).state.events == m[event := Some(init + [func])]
  {
    assert EventEntry(c, event) == if init == [] then None else Some(init);
    assert c.events[event := Some(init + [func])] == m[event := Some(init + [func])];
  }

  /** Applies `@chunk.listen(event)` for each function in turn; a helper for
      stating `ListenKeepsOrder`, which also says what it leaves unchanged. */
  function ListenAll(c: Chunk, event: string, fs: seq<Handler>): (r: Chunk)
    ensures r.buttons == c.buttons && r.commands == c.commands && r.menus == c.menus
    decreases |fs|
  {
    if fs == [] then c else Listen(ListenAll(c, event, fs[..|fs| - 1]), event, fs[|fs| - 1]).state
  }

  /** The entry registered for `func`, if any: a plain function entry holding it. */
  predicate RegisteredFor(entry: CommandEntry, func: Handler) {
    entry.Func? && entry.func == func
  }

  /** `@chunk.add_option(...)` as written: the entries found are the decorated
      function itself, which has no `options` list, so the `.options.append`
      raises AttributeError whenever the function is registered. */
  function AddOptionAsWritten(c: Chunk, option: CommandOption, func: Handler): (r: Result<Decorated<Chunk>, PyError>)
    ensures r.Err? <==> exists k :: k in c.commands && RegisteredFor(c.commands[k], func)
    ensures r.Err? ==> r.error == AttributeError
    ensures r.Ok? ==> r.value == Decorated(c, func)
  {
    if exists k :: k in c.commands && RegisteredFor(c.commands[k], func) then Err(AttributeError)
    else Ok(Decorated(c, func))
  }

  /** `@chunk.add_option(...)` as intended: every command entry holding the
      decorated function gets the option appended; no other entry changes. */
  function AddOption(c: Chunk, option: CommandOption, func: Handler): (r: Decorated<Chunk>)
    ensures r.func == func
    ensures r.state.commands.Keys == c.commands.Keys
    ensures forall k :: k in c.commands && RegisteredFor(c.commands[k], func) ==>
      r.state.commands[k] == Func(func, c.commands[k].options + [option])
    ensures forall k :: k in c.commands && !RegisteredFor(c.commands[k], func) ==>
      r.state.commands[k] == c.commands[k]
    ensures r.state.buttons == c.buttons && r.state.menus == c.menus && r.state.events == c.events
  {
    var commands := map k | k in c.commands ::
      if RegisteredFor(c.commands[k], func) then Func(func, c.commands[k].options + [option]) else c.commands[k];
    Decorated(c.(commands := commands), func)
  }

  /** Stacking `add_option` over `subcommand`: the written code raises, the
      intended one attaches the option to that command. */
  lemma AddOptionDiscrepancy(c: Chunk, name: string, description: Json, options: Json, option: CommandOption, func: Handler)
    ensures var registered := Subcommand(c, name, description, options, func).state;
      && AddOptionAsWritten(registered, option, func) == Err(AttributeError)
      && AddOption(registered, option, func).state.commands[name] == Func(func, [option])
  {
    var registered := Subcommand(c, name, description, options, func).state;
    assert RegisteredFor(registered.commands[name], func);
  }

  /** Options only ever attach to function entries: every group, and with it
      every group added by `add_subcommand_group`, is left as it was. */
  lemma AddOptionLeavesGroups(c: Chunk, name: string, description: Json, options: Json,
                              option: CommandOption, func: Handler)
    ensures forall k :: k in c.commands && c.commands[k].Group? ==>
      AddOption(c, option, func).state.commands[k] == c.commands[k]
    ensures var g := AddSubcommandGroup(c, name, description, options);
      AddOption(g, option, func).state.commands[name] == Group(SubCommandGroup(name, description, options))
  {
    var g := AddSubcommandGroup(c, name, description, options);
    assert !RegisteredFor(g.commands[name], func);
  }
}
