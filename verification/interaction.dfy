/** gatepoint/interaction.py: the attribute view of an interaction payload,
    the reply builder and the registration objects for commands and buttons. */
module GatepointInteraction {
  import opened Wrappers
  import opened Json

  /** One attribute of a wrapped payload: a nested dict becomes an object of
      its own, every other value is stored as it is. */
  datatype Attr = Plain(value: Json) | Nested(object: DictObject)

  /** A `DictObject` (or `Interaction`): one attribute per key of the dict it wraps. */
  datatype DictObject = DictObject(attrs: map<string, Attr>)

  /** `DictObject(json)`: every key becomes an attribute; dict values are
      wrapped recursively, everything else (lists of dicts too) is copied. */
  function Wrap(json: map<string, Json>): (r: DictObject)
    decreases JObj(json)
    ensures r.attrs.Keys == json.Keys
    ensures forall k :: k in json && !json[k].JObj? ==> r.attrs[k] == Plain(json[k])
    ensures forall k :: k in json && json[k].JObj? ==> r.attrs[k].Nested?
  {
    DictObject(map k | k in json :: WrapValue(json, k))
  }

  /** The attribute `setattr` stores for `json[k]`. */
  function WrapValue(json: map<string, Json>, k: string): Attr
    requires k in json
    decreases JObj(json), 0
  {
    match json[k]
    case JObj(inner) =>
      assert json[k] in json.Values;
      Nested(Wrap(inner))
    case _ => Plain(json[k])
  }

  /** `Interaction(payload)`: the same attribute copying as `DictObject`. */
  function NewInteraction(payload: map<string, Json>): (r: DictObject)
    ensures r.attrs.Keys == payload.Keys
    ensures forall k :: k in payload && !payload[k].JObj? ==> r.attrs[k] == Plain(payload[k])
    ensures forall k :: k in payload && payload[k].JObj? ==> r.attrs[k] == Nested(Wrap(payload[k].fields))
  {
    assert forall k :: k in payload ==> Wrap(payload).attrs[k] == WrapValue(payload, k);
    Wrap(payload)
  }

  /** Reads the attributes of a wrapped object back into a dict. */
  function Unwrap(o: DictObject): (r: map<string, Json>)
    ensures r.Keys == o.attrs.Keys
  {
    map k | k in o.attrs :: UnwrapAttr(o.attrs[k])
  }

  function UnwrapAttr(a: Attr): Json {
    match a
    case Plain(v) => v
    case Nested(o) => JObj(Unwrap(o))
  }

  /** No plain attribute holds a dict: what wrapping always produces. */
  predicate Canonical(o: DictObject) {
    forall k :: k in o.attrs ==> CanonicalAttr(o.attrs[k])
  }

  predicate CanonicalAttr(a: Attr) {
    match a
    case Plain(v) => !v.JObj?
    case Nested(o) => Canonical(o)
  }

  /** Wrapping loses nothing: reading the attributes back gives the payload. */
  lemma {:induction false} WrapRoundTrip(json: map<string, Json>)
    decreases JObj(json)
    ensures Unwrap(Wrap(json)) == json
  {
    forall k | k in json && json[k].JObj?
      ensures Unwrap(Wrap(json[k].fields)) == json[k].fields
    {
      assert json[k] in json.Values;
      WrapRoundTrip(json[k].fields);
    }
  }

  /** Every wrapped payload is canonical. */
  lemma {:induction false} WrapIsCanonical(json: map<string, Json>)
    decreases JObj(json)
    ensures Canonical(Wrap(json))
  {
    forall k | k in json && json[k].JObj?
      ensures Canonical(Wrap(json[k].fields))
    {
      assert json[k] in json.Values;
      WrapIsCanonical(json[k].fields);
    }
  }

  /** Conversely, a canonical object is the wrapping of its own attributes,
      so wrapping is a bijection between dicts and canonical objects. */
  lemma {:induction false} UnwrapRoundTrip(o: DictObject)
    requires Canonical(o)
    ensures Wrap(Unwrap(o)) == o
  {
    var json := Unwrap(o);
    forall k | k in o.attrs
      ensures Wrap(json).attrs[k] == o.attrs[k]
    {
      match o.attrs[k]
      case Plain(v) =>
      case Nested(inner) =>
        UnwrapRoundTrip(inner);
    }
  }

  /** `Interaction.respond`: hands its argument back unchanged. */
  function Respond(response: Json): (r: Json)
    ensures r == response
  {
    response
  }

  /** The `flags` value a reply carries: 64 (ephemeral) only when asked for
      and no explicit non-zero flags were given. */
  function ReplyFlags(ephemeral: bool, flags: int): (f: int)
    ensures f == 64 || f == flags
    ensures f != flags <==> ephemeral && flags == 0
  {
    if ephemeral && flags == 0 then 64 else flags
  }

  /** Applying the rule to its own output changes nothing. */
  lemma ReplyFlagsIdempotent(ephemeral: bool, flags: int)
    ensures ReplyFlags(ephemeral, ReplyFlags(ephemeral, flags)) == ReplyFlags(ephemeral, flags)
  {
  }

  /** `Interaction.reply`: a type-4 message envelope. */
  function Reply(content: Json, embeds: Json, ephemeral: bool, flags: int): (r: Json)
    ensures r.JObj? && r.fields.Keys == {"type", "data"}
    ensures r.fields["type"] == JInt(4)
    ensures r.fields["data"].JObj? && r.fields["data"].fields.Keys == {"content", "embeds", "flags"}
    ensures r.fields["data"].fields["content"] == content
    ensures r.fields["data"].fields["embeds"] == embeds
    ensures ephemeral && flags == 0 ==> r.fields["data"].fields["flags"] == JInt(64)
    ensures !(ephemeral && flags == 0) ==> r.fields["data"].fields["flags"] == JInt(flags)
  {
    JObj(map[
      "type" := JInt(4),
      "data" := JObj(map[
        "content" := content,
        "embeds" := embeds,
        "flags" := JInt(ReplyFlags(ephemeral, flags))])])
  }

  /** The flags of a reply: an explicit non-zero value always wins, and a
      reply that is not ephemeral keeps the default 0. */
  lemma ReplyFlagsCases(content: Json, embeds: Json, ephemeral: bool, flags: int)
    ensures flags != 0 ==> Reply(content, embeds, ephemeral, flags).fields["data"].fields["flags"] == JInt(flags)
    ensures Reply(content, embeds, false, 0).fields["data"].fields["flags"] == JInt(0)
    ensures Reply(content, embeds, true, 0).fields["data"].fields["flags"] == JInt(64)
  {
  }

  /** A `CommandInteraction`: the arguments it is constructed with. */
  datatype CommandInteraction = CommandInteraction(
    name: string,
    description: Json,
    guildIds: Json,
    options: Json,
    dmPermission: bool,
    defaultPermission: bool)

  /** `guild_only`: `guild_ids` is truthy, which for a list means non-empty. */
  function GuildOnly(c: CommandInteraction): (r: bool)
    ensures r <==> c.guildIds !in [JNull, JBool(false), JInt(0), JStr(""), JArr([]), JObj(map[])]
  {
    Truthy(c.guildIds)
  }

  /** Neither the default `None` nor an empty list makes a command guild-only. */
  lemma GuildOnlyCases(c: CommandInteraction)
    ensures c.guildIds == JNull ==> !GuildOnly(c)
    ensures c.guildIds == JArr([]) ==> !GuildOnly(c)
    ensures c.guildIds.JArr? ==> (GuildOnly(c) <==> |c.guildIds.items| > 0)
  {
  }

  /** `register_json`: the four keys Discord's registration endpoint reads. */
  function RegisterJson(c: CommandInteraction): (r: map<string, Json>)
    ensures r.Keys == {"name", "description", "options", "default_permission"}
    ensures r["name"] == JStr(c.name)
    ensures r["description"] == c.description
    ensures r["options"] == c.options
    ensures r["default_permission"] == JBool(c.defaultPermission)
  {
    map[
      "name" := JStr(c.name),
      "description" := c.description,
      "options" := c.options,
      "default_permission" := JBool(c.defaultPermission)]
  }

  /** Neither `dm_permission` nor `guild_ids` reaches the registration JSON. */
  lemma RegisterJsonIgnoresScope(c: CommandInteraction, dm: bool, guilds: Json)
    ensures RegisterJson(c.(dmPermission := dm, guildIds := guilds)) == RegisterJson(c)
  {
  }

  /** A `ButtonInteraction`: the arguments it is constructed with. */
  datatype ButtonInteraction = ButtonInteraction(customId: string, labelText: Json, emoji: Json)

  /** `ButtonInteraction.register_json`. */
  function ButtonRegisterJson(b: ButtonInteraction): (r: map<string, Json>)
    ensures r.Keys == {"custom_id", "label", "emoji"}
    ensures r["custom_id"] == JStr(b.customId) && r["label"] == b.labelText && r["emoji"] == b.emoji
  {
    map["custom_id" := JStr(b.customId), "label" := b.labelText, "emoji" := b.emoji]
  }

  /** Reads a button back from registration JSON: exactly the three keys,
      with a string custom id. */
  function ButtonFromJson(j: map<string, Json>): (r: Option<ButtonInteraction>)
    ensures r.Some? <==> j.Keys == {"custom_id", "label", "emoji"} && j["custom_id"].JStr?
  {
    if j.Keys == {"custom_id", "label", "emoji"} && j["custom_id"].JStr? then
      Some(ButtonInteraction(j["custom_id"].s, j["label"], j["emoji"]))
    else None
  }

  /** The registration JSON of a button determines the button, and every
      well-shaped JSON is the registration JSON of the button read from it. */
  lemma ButtonRegisterJsonRoundTrip(b: ButtonInteraction, j: map<string, Json>)
    ensures ButtonFromJson(ButtonRegisterJson(b)) == Some(b)
    ensures ButtonFromJson(j).Some? ==> ButtonRegisterJson(ButtonFromJson(j).value) == j
  {
    if ButtonFromJson(j).Some? {
      var back := ButtonRegisterJson(ButtonFromJson(j).value);
      assert back.Keys == j.Keys;
      assert forall k :: k in j ==> back[k] == j[k];
    }
  }
}
