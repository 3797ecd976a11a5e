/** src/discord/interaction.py: the earliest revision of the interaction
    wrapper, identical in behaviour to src/api_gateway/interaction.py. */
module DiscordInteraction {
  import opened Json
  import Api = ApiGatewayInteraction
  import Menus

  /** `Interaction(payload)`: every top-level key copied as it is. */
  function NewInteraction(payload: map<string, Json>): (attrs: map<string, Json>)
    ensures attrs.Keys == payload.Keys
    ensures forall k :: k in payload ==> attrs[k] == payload[k]
  {
    Api.NewInteraction(payload)
  }

  /** `Interaction.respond`: the identity. */
  function Respond(response: Json): (r: Json)
    ensures r == response
  {
    Api.Respond(response)
  }

  /** `Interaction.reply`: a type-4 envelope with the ephemeral-flags rule. */
  function Reply(content: Json, embeds: Json, ephemeral: bool, flags: int): (r: Json)
    ensures r.JObj? && r.fields.Keys == {"type", "data"}
    ensures r.fields["type"] == JInt(4)
    ensures r.fields["data"].JObj? && r.fields["data"].fields.Keys == {"content", "embeds", "flags"}
    ensures r.fields["data"].fields["content"] == content
    ensures r.fields["data"].fields["embeds"] == embeds
    ensures ephemeral && flags == 0 ==> r.fields["data"].fields["flags"] == JInt(64)
    ensures !(ephemeral && flags == 0) ==> r.fields["data"].fields["flags"] == JInt(flags)
  {
    Api.Reply(content, embeds, ephemeral, flags)
  }

  /** `Choice.__dict__`: exactly `name` and `value`. */
  function ChoiceDict(name: string, value: string): (r: map<string, Json>)
    ensures r.Keys == {"name", "value"}
    ensures r["name"] == JStr(name) && r["value"] == JStr(value)
  {
    Api.ChoiceDict(Api.Choice(name, value))
  }

  /** All three revisions serialise a choice to the same name/value dict. */
  lemma ChoiceDictsAgree(name: string, value: string)
    ensures ChoiceDict(name, value) == Api.ChoiceDict(Api.Choice(name, value))
    ensures Menus.ChoiceDict(Menus.Choice(name, value)) == JObj(ChoiceDict(name, value))
  {
  }
}
