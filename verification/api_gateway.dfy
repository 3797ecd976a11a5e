/** src/api_gateway/interaction.py: the earlier revision's flat interaction
    wrapper, reply builder and registration serialisers. */
module ApiGatewayInteraction {
  import opened Json
  import Wrappers
  import GI = GatepointInteraction

  /** `Interaction(payload)`: every top-level key becomes an attribute holding
      the value as it is; nested dicts stay dicts. */
  function NewInteraction(payload: map<string, Json>): (attrs: map<string, Json>)
    ensures attrs.Keys == payload.Keys
    ensures forall k :: k in payload ==> attrs[k] == payload[k]
  {
    map k | k in payload :: payload[k]
  }

  /** The flat wrapper and gatepoint's recursive one hold the same information:
      unwrapping gatepoint's attributes gives exactly the flat attributes,
      and they agree outright on every attribute that is not a dict. */
  lemma FlatMatchesRecursive(payload: map<string, Json>)
    ensures GI.Unwrap(GI.NewInteraction(payload)) == NewInteraction(payload)
    ensures forall k :: k in payload && !payload[k].JObj? ==>
      GI.NewInteraction(payload).attrs[k] == GI.Plain(NewInteraction(payload)[k])
  {
    GI.WrapRoundTrip(payload);
  }

  /** `Interaction.respond`: the identity. */
  function Respond(response: Json): (r: Json)
    ensures r == response
  {
    GI.Respond(response)
  }

  /** `Interaction.reply` (the awaited value of the coroutine): the same
      envelope and flags rule as gatepoint's reply. */
  function Reply(content: Json, embeds: Json, ephemeral: bool, flags: int): (r: Json)
    ensures r.JObj? && r.fields.Keys == {"type", "data"}
    ensures r.fields["type"] == JInt(4)
    ensures r.fields["data"].JObj? && r.fields["data"].fields.Keys == {"content", "embeds", "flags"}
    ensures r.fields["data"].fields["content"] == content
    ensures r.fields["data"].fields["embeds"] == embeds
    ensures r.fields["data"].fields["flags"] == JInt(64) <==> (ephemeral && flags == 0) || flags == 64
    ensures !(ephemeral && flags == 0) ==> r.fields["data"].fields["flags"] == JInt(flags)
  {
    GI.Reply(content, embeds, ephemeral, flags)
  }

  /** A `Choice`: a name and a value. */
  datatype Choice = Choice(name: string, value: string)

  /** `Choice.__dict__`: exactly `name` and `value`. */
  function ChoiceDict(c: Choice): (r: map<string, Json>)
    ensures r.Keys == {"name", "value"}
    ensures r["name"] == JStr(c.name) && r["value"] == JStr(c.value)
  {
    map["name" := JStr(c.name), "value" := JStr(c.value)]
  }

  /** Reads a choice back from its dict: exactly `name` and `value`, both strings. */
  function ChoiceFromDict(d: map<string, Json>): (r: Wrappers.Option<Choice>)
    ensures r.Some? <==> d.Keys == {"name", "value"} && d["name"].JStr? && d["value"].JStr?
  {
    if d.Keys == {"name", "value"} && d["name"].JStr? && d["value"].JStr? then
      Wrappers.Some(Choice(d["name"].s, d["value"].s))
    else Wrappers.None
  }

  /** A choice's dict determines the choice, and every well-shaped dict is the
      dict of the choice read from it. */
  lemma ChoiceDictRoundTrip(c: Choice, d: map<string, Json>)
    ensures ChoiceFromDict(ChoiceDict(c)) == Wrappers.Some(c)
    ensures ChoiceFromDict(d).Some? ==> ChoiceDict(ChoiceFromDict(d).value) == d
  {
    if ChoiceFromDict(d).Some? {
      var back := ChoiceDict(ChoiceFromDict(d).value);
      assert back.Keys == d.Keys;
      assert forall k :: k in d ==> back[k] == d[k];
    }
  }

  /** An `Option` of this revision: it stores a value, unlike gatepoint's. */
  datatype Option = Option(optionType: int, name: string, value: Json, options: Json)

  /** `Option.__dict__`: exactly `name` and `value`; type and sub-options are dropped. */
  function OptionDict(o: Option): (r: map<string, Json>)
    ensures r.Keys == {"name", "value"}
    ensures r["name"] == JStr(o.name) && r["value"] == o.value
  {
    map["name" := JStr(o.name), "value" := o.value]
  }

  /** An option's dict forgets its type and sub-options, and an option with a
      string value serialises exactly as the choice of the same name and value. */
  lemma OptionDictIsChoiceDict(o: Option, optionType: int, options: Json)
    ensures OptionDict(o.(optionType := optionType, options := options)) == OptionDict(o)
    ensures o.value.JStr? ==> OptionDict(o) == ChoiceDict(Choice(o.name, o.value.s))
  {
  }

  /** A `CommandInteraction` of this revision (no guild or DM settings). */
  datatype CommandInteraction = CommandInteraction(
    name: string,
    description: Json,
    options: Json,
    defaultPermission: bool)

  /** `CommandInteraction.__dict__`: exactly the four registration keys. */
  function CommandDict(c: CommandInteraction): (r: map<string, Json>)
    ensures r.Keys == {"name", "description", "options", "default_permission"}
    ensures r["name"] == JStr(c.name)
    ensures r["description"] == c.description
    ensures r["options"] == c.options
    ensures r["default_permission"] == JBool(c.defaultPermission)
  {
    GI.RegisterJson(GI.CommandInteraction(c.name, c.description, JNull, c.options, false, c.defaultPermission))
  }

  /** This revision's command dict is what gatepoint later calls
      `register_json`, for the same name, description, options and permission. */
  lemma CommandDictMatchesRegisterJson(c: CommandInteraction, guilds: Json, dm: bool)
    ensures CommandDict(c) ==
      GI.RegisterJson(GI.CommandInteraction(c.name, c.description, guilds, c.options, dm, c.defaultPermission))
  {
    GI.RegisterJsonIgnoresScope(GI.CommandInteraction(c.name, c.description, JNull, c.options, false, c.defaultPermission), dm, guilds);
  }
}
