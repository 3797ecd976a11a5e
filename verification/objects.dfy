/** The constant classes and the `Emoji` object of gatepoint/objects.py. */
module Objects {
  import opened Wrappers
  import opened Json

  /** The five button styles Discord knows. */
  datatype ButtonStyle = Primary | Secondary | Success | Danger | Link {

    /** The integer the SDK sends for the style. */
    function Value(): (r: int)
      ensures 1 <= r <= 5
      ensures r == 5 <==> this == Link
    {
      match this
      case Primary => 1
      case Secondary => 2
      case Success => 3
      case Danger => 4
      case Link => 5
    }
  }

  /** The style whose value is `n`, if any. */
  function ButtonStyleOf(n: int): (r: Wrappers.Option<ButtonStyle>)
    ensures r.Some? <==> 1 <= n <= 5
    ensures r.Some? ==> r.value.Value() == n
  {
    if n == 1 then Wrappers.Some(Primary)
    else if n == 2 then Wrappers.Some(Secondary)
    else if n == 3 then Wrappers.Some(Success)
    else if n == 4 then Wrappers.Some(Danger)
    else if n == 5 then Wrappers.Some(Link)
    else Wrappers.None
  }

  /** Distinct styles have distinct values, and decoding a value gives the style back. */
  lemma ButtonStyleValuesDistinct(s: ButtonStyle, t: ButtonStyle)
    ensures s.Value() == t.Value() <==> s == t
    ensures ButtonStyleOf(s.Value()) == Wrappers.Some(s)
  {
  }

  /** The slash-command option types. */
  datatype OptionType = SubCommand | SubCommandGroup | String | Integer | Boolean | User | Channel | Role {

    function Value(): (r: int)
      ensures 1 <= r <= 8
    {
      match this
      case SubCommand => 1
      case SubCommandGroup => 2
      case String => 3
      case Integer => 4
      case Boolean => 5
      case User => 6
      case Channel => 7
      case Role => 8
    }
  }

  /** The option type whose value is `n`, if any. */
  function OptionTypeOf(n: int): (r: Wrappers.Option<OptionType>)
    ensures r.Some? <==> 1 <= n <= 8
    ensures r.Some? ==> r.value.Value() == n
  {
    if n == 1 then Wrappers.Some(SubCommand)
    else if n == 2 then Wrappers.Some(SubCommandGroup)
    else if n == 3 then Wrappers.Some(String)
    else if n == 4 then Wrappers.Some(Integer)
    else if n == 5 then Wrappers.Some(Boolean)
    else if n == 6 then Wrappers.Some(User)
    else if n == 7 then Wrappers.Some(Channel)
    else if n == 8 then Wrappers.Some(Role)
    else Wrappers.None
  }

  /** The option type values are exactly the distinct integers 1 to 8. */
  lemma OptionTypeValuesDistinct(s: OptionType, t: OptionType)
    ensures s.Value() == t.Value() <==> s == t
    ensures OptionTypeOf(s.Value()) == Wrappers.Some(s)
  {
  }

  /** An emoji: the constructor's arguments and the dict it fixes at construction. */
  datatype Emoji = Emoji(name: string, id: Json, animated: bool, dict: map<string, Json>)

  /** `Emoji(name, id, animated)`: an animated emoji's dict leaves out `animated`. */
  function NewEmoji(name: string, id: Json, animated: bool): (e: Emoji)
    ensures e.name == name && e.id == id && e.animated == animated
    ensures e.dict.Keys == if animated then {"name", "id"} else {"name", "id", "animated"}
    ensures e.dict["name"] == JStr(name) && e.dict["id"] == id
    ensures "animated" in e.dict ==> e.dict["animated"] == JBool(false)
  {
    var d :=
      if !animated then map["name" := JStr(name), "id" := id, "animated" := JBool(animated)]
      else map["name" := JStr(name), "id" := id];
    Emoji(name, id, animated, d)
  }

  /** `Emoji.to_dict`: the dict fixed at construction. */
  function EmojiToDict(e: Emoji): map<string, Json> {
    e.dict
  }

  /** Reads an emoji's fields back from its dict: the name and id, and
      `animated` from whether the key is absent. */
  function EmojiFields(d: map<string, Json>): (r: Option<(string, Json, bool)>)
    ensures r.Some? <==> "name" in d && d["name"].JStr? && "id" in d
    ensures r.Some? ==> r.value.2 == ("animated" !in d)
  {
    if "name" in d && d["name"].JStr? && "id" in d then Some((d["name"].s, d["id"], "animated" !in d))
    else None
  }

  /** The dict an emoji hands out recovers the name, id and `animated` flag it
      was built from, so two emojis with the same dict are the same emoji. */
  lemma EmojiDictRoundTrip(name: string, id: Json, animated: bool)
    ensures EmojiFields(EmojiToDict(NewEmoji(name, id, animated))) == Some((name, id, animated))
  {
  }

  /** Building an emoji is injective: the dict alone tells the arguments apart. */
  lemma EmojiDictInjective(n1: string, i1: Json, a1: bool, n2: string, i2: Json, a2: bool)
    requires EmojiToDict(NewEmoji(n1, i1, a1)) == EmojiToDict(NewEmoji(n2, i2, a2))
    ensures n1 == n2 && i1 == i2 && a1 == a2
  {
    EmojiDictRoundTrip(n1, i1, a1);
    EmojiDictRoundTrip(n2, i2, a2);
  }
}
