# GatePoint core in Dafny

GatePoint is a decorator-based SDK for Discord "Interactions" webhook bots.
This project models its sequential core as pure Dafny functions over
immutable values, and proves properties of them:

- **The interaction endpoint** (`gateway.dfy`). The `POST /interaction` body checks the
  request signature over the timestamp followed by the body. It then switches on the
  payload's `type`: a ping, a slash command, or a button (types 3 and 4). The endpoint is a
  function `(client, verifier, request) -> Outcome`. An `Outcome` is the response plus the
  trace of listener and handler calls. Handlers are opaque identities. The Ed25519 check is
  a function parameter.
- **The registries**. `GatewayClient.register`/`event` (`gateway.dfy`) and the `Chunk`
  decorators `button`, `menu`, `subcommand`, `add_subcommand_group`, `listen` and
  `add_option` (`chunk.dfy`) are map updates.
- **Response builders**. `reply`/`respond` and the payload wrappers are modelled in each of
  the three revisions: `interaction.dfy`, `api_gateway.dfy` and `discord_interaction.dfy`.
  So are `guild_only`/`register_json` and the `__dict__` serialisers.
- **Components**. These are `Button` validation and style derivation (`button.dfy`), the
  five select menus' `to_dict` (`menu.dfy`) and the five-per-row bound of `ActionRow`
  (`component.dfy`).
- **Constants and `Emoji`** (`objects.dfy`).
- **The file-name sanitiser** `to_path` (`filenames.dfy`).

Values that Python code reads from parsed JSON are `Json.Json` values. Python's
truthiness (`Json.Truthy`), subscription (`Json.Subscript`, which raises KeyError or
TypeError) and `==` against an integer literal (`Json.EqualsInt`, where `True == 1`) are
written out explicitly. An exception is modelled as a `Result` error or as a `Raised`
response.

Some behaviour of the code is worth stating plainly:

- events hold one listener each in `GatewayClient`;
- only `interaction_receive` fires;
- there is no menu branch in the endpoint;
- an unknown `type` produces no body at all, rather than a fallback message or a protocol
  error;
- `reply` performs no validation.

## Model

| member | source | states |
|---|---|---|
| Json.Subscript | gatepoint/gateway.py:61-69 | `v[key]` yields the dict value when the key is present; a missing key raises KeyError, and a value that is not a dict raises TypeError |
| Json.Truthy | gatepoint/components/menu.py:67-77 | Python truthiness of a parsed value, as the `if self.x:` tests use it |
| Json.FalsyValues | gatepoint/components/menu.py:67-77 | exactly `None`, `False`, `0`, `""`, `[]` and `{}` are falsy |
| Json.EqualsInt | gatepoint/gateway.py:61-94 | `payload["type"] == n`, under which `True == 1` and `False == 0` |
| Json.BoolsCompareAsIntegers | gatepoint/gateway.py:61-94 | a boolean equals 1 or 0 as Python compares it, an integer equals itself, and a string equals no integer |
| Gateway.NewClient | gatepoint/gateway.py:18-21 | a new client starts with empty command, button and event registries |
| Gateway.Register | gatepoint/gateway.py:23-30 | a command is stored under its name in `commands` only, a button under its custom id in `buttons` only; events are untouched and the function is returned unchanged |
| Gateway.RegisterLastWins | gatepoint/gateway.py:25-28 | registering the same key twice leaves the registry as if only the later registration had happened |
| Gateway.Event | gatepoint/gateway.py:32-36 | `event(name)` binds exactly one listener to the name, leaving commands and buttons alone, and returns the function |
| Gateway.EventReplaces | gatepoint/gateway.py:34 | a second listener for the same event replaces the first |
| Gateway.SignedMessage | gatepoint/gateway.py:49-54 | the verified message is the timestamp followed by the body; a missing timestamp header contributes the text "None" |
| Gateway.Lookup | gatepoint/gateway.py:67 | membership of the parsed name or custom id: only a registered string matches, and a list or dict key raises TypeError |
| Gateway.Route | gatepoint/gateway.py:66-77 | a handler runs exactly when `payload["data"][key]` is a registered string and `interaction_receive` has a listener; it is the handler registered under that string, it runs on the raw payload after one firing, and an unregistered string gets the fallback with no calls; a missing `data` or name key raises KeyError and a non-dict `data` or a list or dict name raises TypeError, with no calls; a name of any other non-string kind gets the fallback |
| Gateway.Dispatch | gatepoint/gateway.py:61-103 | at most two calls per payload, and a handler result always comes after exactly one `interaction_receive` firing; a payload without a `type` key, or one that is not a dict, raises before any call |
| Gateway.Interaction | gatepoint/gateway.py:46-103 | the invalid-signature tuple is returned exactly when the verifier reports a bad signature over timestamp+body, with no calls; a missing signature header raises TypeError; whatever else the verifier raises propagates, with no calls |
| Gateway.GateDecidesBeforeParsing | gatepoint/gateway.py:53-59 | when the signature does not verify, the outcome does not depend on the payload or on the registries, and nothing is called |
| Gateway.SignatureCoversTimestampAndBody | gatepoint/gateway.py:54 | only the verifier's answer on (timestamp+body, signature) influences the outcome |
| Gateway.VerifiedDispatches | gatepoint/gateway.py:58-61 | an authenticated request is dispatched on its parsed payload |
| Gateway.PingIgnoresRegistries | gatepoint/gateway.py:61-64 | type 1 (or JSON `true`) yields exactly `{"type": 1}` whatever is registered, and fires nothing |
| Gateway.CommandRouted | gatepoint/gateway.py:66-69 | a registered command fires `interaction_receive` once, then runs that command's handler, whose result is the response |
| Gateway.CommandUnregistered | gatepoint/gateway.py:71-77 | an unregistered command name yields the fixed ephemeral "not registered" message (flags 64) and calls nothing |
| Gateway.ButtonTypesAgree | gatepoint/gateway.py:79-103 | types 3 and 4 take the same branch, a button lookup by `custom_id` |
| Gateway.ButtonRouted | gatepoint/gateway.py:79-90 | a registered button runs its handler after `interaction_receive`; an unregistered one gets the fixed button fallback |
| Gateway.MissingListenerRaises | gatepoint/gateway.py:68 | with no `interaction_receive` listener a routed interaction raises KeyError before any handler runs |
| Gateway.MalformedPayloadRaises | gatepoint/gateway.py:66-101 | for types 2, 3 and 4, a payload whose `data` or name lookup fails raises that KeyError or TypeError with no calls, a list or dict name raises TypeError, and any other non-string name gets a body with no calls |
| Gateway.UnknownTypeHasNoBody | gatepoint/gateway.py:61-103 | a type other than 1 to 4 matches no branch: no body and no calls |
| Gateway.AtMostOneReply | gatepoint/gateway.py:46-103 | at most one handler runs per request; it runs last and is the one whose result is returned |
| GatepointInteraction.Wrap | gatepoint/interaction.py:5-11 | every key becomes an attribute; non-dict values (lists of dicts included) are copied, dict values become nested objects |
| GatepointInteraction.NewInteraction | gatepoint/interaction.py:13-19 | `Interaction` has one attribute per payload key; a non-dict value is kept as-is and a dict value becomes a nested `DictObject` of that dict |
| GatepointInteraction.WrapRoundTrip | gatepoint/interaction.py:5-19 | reading the attributes back yields the original payload: wrapping loses nothing |
| GatepointInteraction.WrapIsCanonical | gatepoint/interaction.py:8-11 | no plain attribute of a wrapped object ever holds a dict |
| GatepointInteraction.UnwrapRoundTrip | gatepoint/interaction.py:5-11 | every canonical object is the wrapping of its own attributes (wrapping is a bijection) |
| GatepointInteraction.Respond | gatepoint/interaction.py:21-22 | `respond` returns its argument |
| GatepointInteraction.ReplyFlags | gatepoint/interaction.py:30 | flags become 64 exactly when ephemeral is requested with flags 0; otherwise the given flags are kept |
| GatepointInteraction.ReplyFlagsIdempotent | gatepoint/interaction.py:30 | applying the flags rule to its own output changes nothing |
| GatepointInteraction.Reply | gatepoint/interaction.py:24-32 | a type-4 envelope whose data has exactly content, embeds and flags, with content and embeds copied |
| GatepointInteraction.ReplyFlagsCases | gatepoint/interaction.py:24-30 | an explicit non-zero flags value wins; a reply that is not ephemeral keeps the default 0; ephemeral alone gives 64 |
| GatepointInteraction.GuildOnly | gatepoint/interaction.py:81 | `guild_only` is false exactly for Python's falsy `guild_ids`: `None`, `False`, `0`, `""`, `[]` and `{}` |
| GatepointInteraction.GuildOnlyCases | gatepoint/interaction.py:81 | `guild_only` holds exactly for a non-empty list; both `None` and `[]` give false |
| GatepointInteraction.RegisterJson | gatepoint/interaction.py:86-91 | exactly the keys name, description, options and default_permission, copied from the constructor |
| GatepointInteraction.RegisterJsonIgnoresScope | gatepoint/interaction.py:80-91 | `dm_permission` and `guild_ids` have no influence on the registration JSON |
| GatepointInteraction.ButtonRegisterJson | gatepoint/interaction.py:103-111 | a button's registration JSON has exactly custom_id, label and emoji |
| GatepointInteraction.ButtonRegisterJsonRoundTrip | gatepoint/interaction.py:103-111 | the registration JSON determines the button, and every three-key JSON with a string custom_id is the registration JSON of the button read from it |
| ApiGatewayInteraction.NewInteraction | src/api_gateway/interaction.py:3-6 | every top-level key is copied as-is, with no recursive wrapping |
| ApiGatewayInteraction.FlatMatchesRecursive | src/api_gateway/interaction.py:4-6 | the flat wrapper and gatepoint's recursive one hold the same information and agree on every non-dict attribute |
| ApiGatewayInteraction.Respond | src/api_gateway/interaction.py:8-9 | `respond` returns its argument |
| ApiGatewayInteraction.Reply | src/api_gateway/interaction.py:11-19 | a type-4 envelope with content and embeds copied; flags are 64 iff ephemeral with flags 0 (or 64 given), else unchanged |
| ApiGatewayInteraction.ChoiceDict | src/api_gateway/interaction.py:21-30 | exactly the keys name and value |
| ApiGatewayInteraction.ChoiceFromDict | src/api_gateway/interaction.py:21-30 | a dict reads back as a choice exactly when it has just name and value, both strings |
| ApiGatewayInteraction.ChoiceDictRoundTrip | src/api_gateway/interaction.py:21-30 | a choice's dict determines the choice, and every well-shaped dict is the dict of the choice read from it |
| ApiGatewayInteraction.OptionDict | src/api_gateway/interaction.py:32-43 | exactly the keys name and value; type and sub-options are dropped |
| ApiGatewayInteraction.OptionDictIsChoiceDict | src/api_gateway/interaction.py:21-43 | an option's dict ignores its type and sub-options, and with a string value equals the dict of the choice of the same name and value |
| ApiGatewayInteraction.CommandDict | src/api_gateway/interaction.py:45-58 | exactly the keys name, description, options and default_permission |
| ApiGatewayInteraction.CommandDictMatchesRegisterJson | src/api_gateway/interaction.py:52-58 | this revision's command dict equals gatepoint's `register_json` for the same fields |
| DiscordInteraction.NewInteraction | src/discord/interaction.py:1-4 | every top-level key is copied as-is |
| DiscordInteraction.Respond | src/discord/interaction.py:6-7 | `respond` returns its argument |
| DiscordInteraction.Reply | src/discord/interaction.py:9-17 | a type-4 envelope with content and embeds copied; flags are 64 when ephemeral with flags 0, otherwise unchanged |
| DiscordInteraction.ChoiceDict | src/discord/interaction.py:19-28 | exactly the keys name and value |
| DiscordInteraction.ChoiceDictsAgree | src/discord/interaction.py:19-28 | the three revisions serialise a choice to the same name/value dict |
| Objects.ButtonStyle.Value | gatepoint/objects.py:33-38 | a style's value lies in 1 to 5, and 5 is LINK's alone |
| Objects.OptionType.Value | gatepoint/objects.py:18-26 | an option type's value lies in 1 to 8 |
| Objects.ButtonStyleOf | gatepoint/objects.py:33-38 | exactly the integers 1 to 5 are button styles |
| Objects.ButtonStyleValuesDistinct | gatepoint/objects.py:33-38 | style values are distinct and decode back to their style; LINK is the only style with value 5 |
| Objects.OptionTypeOf | gatepoint/objects.py:18-26 | exactly the integers 1 to 8 are option types |
| Objects.OptionTypeValuesDistinct | gatepoint/objects.py:18-26 | option type values are distinct and decode back to their type |
| Objects.NewEmoji | gatepoint/objects.py:2-13 | the dict has name, id and animated (false) when not animated, and only name and id when animated |
| Objects.EmojiToDict | gatepoint/objects.py:15-16 | `to_dict` hands out the dict fixed at construction |
| Objects.EmojiFields | gatepoint/objects.py:6-13 | a dict reads back as name, id and `animated`, the flag being the absence of the `animated` key |
| Objects.EmojiDictRoundTrip | gatepoint/objects.py:2-16 | `to_dict` recovers the name, id and animated flag the emoji was built from |
| Objects.EmojiDictInjective | gatepoint/objects.py:2-16 | two emojis with the same dict were built from the same arguments |
| Buttons.DeriveStyle | gatepoint/components/button.py:16 | a truthy url forces style 5 (LINK); otherwise a non-zero style is kept and `None` or 0 become 1 |
| Buttons.NewButton | gatepoint/components/button.py:4-17 | construction succeeds iff 0 < len(custom_id) <= 100, else raises the ValueError; on success label, custom_id and url are stored unchanged |
| Buttons.CustomIdBoundInclusive | gatepoint/components/button.py:11-12 | exactly 100 characters are accepted despite the message, 101 are not, and an empty id is rejected |
| Buttons.LinkOverridesStyle | gatepoint/components/button.py:16 | with a url the style argument has no effect, and the result decodes to LINK |
| Menus.ChoiceDict | gatepoint/option.py:10-14 | a choice serialises to exactly name and value |
| Menus.NewSelectMenu | gatepoint/components/menu.py:6-20 | the constructor's defaults are all falsy |
| Menus.PutIfTruthy | gatepoint/components/menu.py:32-33 | a key is added only when its value is truthy, and nothing else changes |
| Menus.OptionalKeys | gatepoint/components/menu.py:32-42 | each of placeholder, min_values, max_values and disabled is present exactly when truthy, holding the given value |
| Menus.ChoiceDicts | gatepoint/components/menu.py:26-29 | options are serialised element-wise, in order, keeping their number |
| Menus.SelectMenuDict | gatepoint/components/menu.py:22-44 | type 3, the custom id, the options element-wise in order, and the optional keys only when truthy (so 0 and False are omitted) |
| Menus.SelectMenuDictAsWritten | gatepoint/components/menu.py:22-30 | as written, serialisation fails exactly when there is at least one option |
| Menus.SelectMenuAsWrittenDiscrepancy | gatepoint/components/menu.py:26-29 | with options the written code raises AttributeError; without options it agrees with the corrected serialiser |
| Menus.SelectMenuOneChoiceFails | gatepoint/components/menu.py:27 | a menu with one choice is a concrete failing input |
| Menus.NewUserSelect | gatepoint/components/menu.py:47-59 | min_values and max_values default to 1 |
| Menus.UserSelectDict | gatepoint/components/menu.py:61-79 | type 5, the custom id, no options key, and the optional keys only when truthy |
| Menus.UserSelectIsSelectMenu | gatepoint/components/menu.py:22-79 | for every input, a user select serialises as a string select with the same fields and no options, with type 5 in place of 3 and no `options` key |
| Menus.PutIfTruthyCommutes | gatepoint/components/menu.py:32-42 | adding an optional key commutes with setting or removing any other key |
| Menus.UserSelectDefaults | gatepoint/components/menu.py:51-74 | a default user select serialises with both limits present and nothing else optional |
| Menus.NewFixedSelect | gatepoint/components/menu.py:82-87 | role, mentionable and channel selects default to a `None` placeholder, limits 1 and disabled False |
| Menus.FixedSelectDict | gatepoint/components/menu.py:89-97 | always exactly six keys with the values verbatim, `None` placeholder included; the type is 6, 7 or 8 by kind |
| Menus.FixedSelectKinds | gatepoint/components/menu.py:107-133 | the three kinds differ only in their type code, always serialise six keys, and keep a `None` placeholder |
| Menus.FalsyFieldsDifferByClass | gatepoint/components/menu.py:61-97 | the omit-when-falsy classes drop a False disabled flag or a 0 limit that the fixed-shape classes keep |
| Components.NewActionRow | gatepoint/components/component.py:7-10 | construction succeeds iff there are at most 5 components, stored in order; otherwise raises the ValueError |
| Components.RowBoundIgnoresKinds | gatepoint/components/component.py:7-10 | buttons and every select kind count equally toward the bound |
| Components.RowBoundIsFive | gatepoint/components/component.py:9-10 | five components make a row, six raise |
| Chunks.NewChunk | gatepoint/chunks/chunk.py:5-9 | a new chunk has four empty registries |
| Chunks.RegisterButton | gatepoint/chunks/chunk.py:114-125 | stores the function under custom_id in `buttons` only and returns it unchanged |
| Chunks.RegisterMenu | gatepoint/chunks/chunk.py:127-138 | stores the function under custom_id in `menus` only and returns it unchanged |
| Chunks.LaterRegistrationWins | gatepoint/chunks/chunk.py:123-136 | registering a button or menu id twice keeps only the later handler |
| Chunks.Subcommand | gatepoint/chunks/chunk.py:90-112 | stores the decorated function under the name in `commands` only and returns it |
| Chunks.AddSubcommandGroup | gatepoint/chunks/chunk.py:69-88 | stores the group object itself under its name at once, in `commands` only |
| Chunks.LaterGroupWins | gatepoint/chunks/chunk.py:69-88 | a later group of the same name replaces the earlier one outright |
| Chunks.ListenAsWritten | gatepoint/chunks/chunk.py:141-153 | as written, the first listener is stored as `[func]` and a later one stores `None` |
| Chunks.ListenAsWrittenLosesListeners | gatepoint/chunks/chunk.py:149-150 | two listeners leave `None`, and a third starts over with a list of one |
| Chunks.Listen | gatepoint/chunks/chunk.py:148-152 | corrected: the listener is appended to the event's list, and the other registries are unchanged |
| Chunks.ListenKeepsOrder | gatepoint/chunks/chunk.py:148-152 | listeners accumulate in registration order, and the other registries and events are left unchanged |
| Chunks.AddOptionAsWritten | gatepoint/chunks/chunk.py:55-67 | as written, AttributeError is raised exactly when the decorated function is registered; otherwise nothing changes |
| Chunks.AddOption | gatepoint/chunks/chunk.py:63-65 | corrected: the option is appended to every command entry holding the function and to no other; other registries are unchanged |
| Chunks.AddOptionLeavesGroups | gatepoint/chunks/chunk.py:63-88 | options attach only to function entries; every group, including one just added, is left as it was |
| Chunks.AddOptionDiscrepancy | gatepoint/chunks/chunk.py:63-65 | over a subcommand the written code raises, whereas the corrected one attaches the option |
| Filenames.BaseTableMeaning | gatepoint/__main__.py:95-108 | the table maps the seven forbidden characters to `-`, deletes code points 0 to 31, and holds no other character |
| Filenames.TranslateChar | gatepoint/__main__.py:145 | a control character is deleted, a forbidden one becomes `-`, any other passes through |
| Filenames.Translate | gatepoint/__main__.py:145 | no forbidden or control character survives; the length never grows, and stays the same iff the input has no control character |
| Filenames.TranslateMatchesReference | gatepoint/__main__.py:95-110 | translation equals replacing forbidden characters by `-` and then dropping control characters |
| Filenames.TranslateFixesClean | gatepoint/__main__.py:145 | a name that is already clean translates to itself |
| Filenames.TranslateAppend | gatepoint/__main__.py:145 | translation distributes over concatenation |
| Filenames.SlashesPassThrough | gatepoint/__main__.py:100-101 | `/` and `\` pass through unchanged |
| Filenames.OrdinaryPassesThrough | gatepoint/__main__.py:95-108 | a character the table does not list is kept as it is |
| Filenames.ReplaceSpaces | gatepoint/__main__.py:146-147 | every space becomes `-` and no space remains; other characters and the length are kept |
| Filenames.IsReservedName | gatepoint/__main__.py:142 | the win32 test: at most four characters whose upper case is a reserved device name |
| Filenames.ReservedIgnoresCase | gatepoint/__main__.py:118-142 | the test gives the same answer for a name and its upper case, and only names of three or four characters fail it |
| Filenames.ReservedEndInLetterOrDigit | gatepoint/__main__.py:118-141 | a reserved device name has three characters or ends in a digit 1 to 9 |
| Filenames.Sanitise | gatepoint/__main__.py:145-147 | the result is clean and no longer than the input; with replace_spaces it has no space |
| Filenames.SanitiseIdempotent | gatepoint/__main__.py:145-147 | sanitising an already-sanitised name returns it unchanged |
| Filenames.ToPath | gatepoint/__main__.py:113-148 | on win32 a name of length at most 4 whose upper case is reserved is rejected; otherwise the sanitised name is returned |
| Filenames.ToPathIdempotentOffWindows | gatepoint/__main__.py:117-147 | away from win32, applying `to_path` to its own result changes nothing |
| Filenames.ToPathLetsReservedThrough | gatepoint/__main__.py:142-145 | on win32 "CON" followed by a control character is accepted and comes out as the reserved name "CON" |
| Filenames.DropTrailingControl | gatepoint/__main__.py:108 | a trailing control character is deleted from a clean name |
| Filenames.ToPathChecked | gatepoint/__main__.py:117-147 | corrected: the reserved-name check runs on the name about to be returned, so no reserved name ever comes out on win32 |
| Filenames.ToPathCheckedIdempotent | gatepoint/__main__.py:145-147 | the corrected form is idempotent on every platform |

## Findings

| source | as written | input that shows it | evidently intended | confidence | as-written member | corrected member |
|---|---|---|---|---|---|---|
| gatepoint/chunks/chunk.py:149-150 | stores the result of `list.append`, which is `None` | two `listen` calls for one event (Chunks.ListenAsWrittenLosesListeners) | append the listener and keep the list | high, not executed | Chunks.ListenAsWritten | Chunks.Listen |
| gatepoint/chunks/chunk.py:63-65 | calls `.options.append` on the stored entry, which is the plain decorated function | `add_option` stacked over `subcommand` on one function (Chunks.AddOptionDiscrepancy) | attach the option to that command's option list | medium, not executed | Chunks.AddOptionAsWritten | Chunks.AddOption |
| gatepoint/components/menu.py:26-29 | calls `option.to_dict()`, but gatepoint/option.py's `Choice` defines only `__dict__` | a menu with one `Choice` (Menus.SelectMenuOneChoiceFails) | serialise each choice as its name/value dict | medium, not executed | Menus.SelectMenuDictAsWritten | Menus.SelectMenuDict |
| gatepoint/__main__.py:142-145 | checks the reserved device names before translation | `"CON\x01"` on win32 gives `"CON"` (Filenames.ToPathLetsReservedThrough) | never return a reserved device name | medium, not executed | Filenames.ToPath | Filenames.ToPathChecked |

## Left out

- Ed25519 verification, `bytes.fromhex` on the signature, and the `VerifyKey` built from the configured public key (gatepoint/gateway.py:48) are one function parameter of `Gateway.Interaction`. That parameter answers Verified, BadSignature, or another exception. A malformed configured key is not modelled.
- UTF-8 decoding of the body and `request.json()` are left out. The request carries the decoded body and the parsed payload side by side, so malformed bodies are not modelled.
- The HTTP layer is left out: FastAPI, the `GET /` route, `app.run`, async scheduling, and how the framework renders the `('invalid request signature', 401)` tuple or a `None` result.
- Running handlers and listeners is left out. They are opaque identities recorded in the trace. Their results and any exceptions they raise are not modelled.
- The `GatewayClient` configuration fields (API version, keys, token, port) and the never-used `autocomplete` map hold no logic.
- `Chunk.command` (gatepoint/chunks/chunk.py:12-35) is broken: it references undefined `args`/`kwargs` and calls `.append` on a dict.
- chunk.py never imports `List`, `Union`, `Optional`, `Callable`, `OptionType`, `Snowflake` or `CommandOption`. The model follows what each method body evidently does.
- The `.interactions` module that chunk.py imports is not part of this model. Its objects carry just the name or custom id.
- `listen` and `command` are declared `@classmethod`, so their `self` is the class. `listen` is modelled as the instance-level update.
- Gateway.Route: the handler is chosen from the payload as it was before `interaction_receive` ran. In gatepoint/gateway.py:68-69, and likewise in the button branches, the listener gets the live payload dict, and the next line then reads `payload["data"]["name"]` (or `custom_id`) and the registry again. A listener that mutates the payload or a registry can change which handler runs, or make the lookup raise KeyError; listeners are opaque, so this is not modelled.
- GatepointInteraction.Wrap: `setattr` is modelled as a plain attribute store for every key. In Python a `__class__` key raises TypeError, a `__weakref__` key raises AttributeError, and a `__dict__` key raises TypeError, since the value stored is never a dict (a dict value has been wrapped first).
- GatepointInteraction.NewInteraction: the same `setattr` special keys (`__class__`, `__dict__`, `__weakref__`) as for `Wrap` are not modelled.
- ApiGatewayInteraction.NewInteraction: the `setattr` special keys are not modelled. `__class__` raises TypeError and `__weakref__` raises AttributeError. A `__dict__` key raises TypeError for a non-dict value, and a dict value replaces the instance dict.
- DiscordInteraction.NewInteraction: the same `setattr` special keys as for `ApiGatewayInteraction.NewInteraction` are not modelled.
- A payload key that names a method (`reply`, `respond`) shadows that method on the wrapped object. Attribute lookup is not modelled.
- Payload values are JSON without floating-point numbers, and dict key order is not modelled.
- The win32 reserved-name check follows `str.upper` only for ASCII letters (`Filenames.Upper`). Non-ASCII case mappings are not modelled.
- `to_path` returns an input that is already a `Path` unchanged (gatepoint/__main__.py:114-115). Wrapping the result in `Path` is left out.
- `parser.error` is modelled as an error result, not as process exit.
- `show_version`, `core`, `parse_args`, `main` and the `.gitignore` template in gatepoint/__main__.py are printing and argument parsing.
- Buttons.NewButton: `url` is an optional string and `style` an optional integer. A truthy value of another type passed as `style` is not modelled.
- GatepointInteraction.ReplyFlags: `flags` is an integer. A `None` or boolean `flags` argument is not modelled.
- The `Choice` and `Option` classes in gatepoint/interaction.py:34-66 are not modelled. `Choice` behaves like `ApiGatewayInteraction.ChoiceDict`, and `Option.__dict__` reads a `value` that is never set.
- The `InteractionType` constants (gatepoint/objects.py:28-31) are never used by the core.
- gatepoint/__init__.py, example.py, src/api_gateway/types.py and gatepoint/option.py's `Option` hold no core behaviour.
