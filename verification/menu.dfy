/** gatepoint/components/menu.py: the five select-menu components and their
    `to_dict` serialisers. */
module Menus {
  import opened Wrappers
  import opened Json

  /** A select option as gatepoint/option.py declares it: a name and a value.
      That class offers `__dict__()` but no `to_dict()`. */
  datatype Choice = Choice(name: string, value: string)

  /** The dict gatepoint/option.py's `Choice.__dict__` builds. */
  function ChoiceDict(c: Choice): (r: Json)
    ensures r.JObj? && r.fields.Keys == {"name", "value"}
    ensures r.fields["name"] == JStr(c.name) && r.fields["value"] == JStr(c.value)
  {
    JObj(map["name" := JStr(c.name), "value" := JStr(c.value)])
  }

  /** A string select menu. The optional arguments are kept as the Python
      values they were given, since `to_dict` tests their truthiness. */
  datatype SelectMenu = SelectMenu(
    customId: string,
    options: seq<Choice>,
    placeholder: Json,
    minValues: Json,
    maxValues: Json,
    disabled: Json)

  /** `SelectMenu(custom_id, options)` with the constructor's defaults. */
  function NewSelectMenu(customId: string, options: seq<Choice>): (m: SelectMenu)
    ensures m.customId == customId && m.options == options
    ensures !Truthy(m.placeholder) && !Truthy(m.minValues) && !Truthy(m.maxValues) && !Truthy(m.disabled)
  {
    SelectMenu(customId, options, JNull, JNull, JNull, JBool(false))
  }

  /** `{key}` when `v` is truthy, and no key otherwise. */
  function KeyIfTruthy(key: string, v: Json): (r: set<string>)
    ensures key in r <==> Truthy(v)
    ensures r <= {key}
  {
    if Truthy(v) then {key} else {}
  }

  /** `d` with `key` added when `v` is truthy, as the `if self.x: dict_[k] = self.x` steps do. */
  function PutIfTruthy(d: map<string, Json>, key: string, v: Json): (r: map<string, Json>)
    ensures r.Keys == d.Keys + KeyIfTruthy(key, v)
    ensures Truthy(v) ==> r[key] == v
    ensures forall k :: k in d && k != key ==> r[k] == d[k]
    ensures key !in d ==> OptionalKey(r, key, v)
  {
    if Truthy(v) then d[key := v] else d
  }

  /** The four optional keys, each present exactly when its value is truthy. */
  function OptionalKeys(d: map<string, Json>, placeholder: Json, minValues: Json, maxValues: Json, disabled: Json)
    : (r: map<string, Json>)
    requires d.Keys !! OptionalNames
    ensures r.Keys == d.Keys + TruthyKeys(placeholder, minValues, maxValues, disabled)
    ensures forall k :: k in d ==> r[k] == d[k]
    ensures OptionalKey(r, "placeholder", placeholder) && OptionalKey(r, "min_values", minValues)
    ensures OptionalKey(r, "max_values", maxValues) && OptionalKey(r, "disabled", disabled)
  {
    OptionalStepsKeys(d, placeholder, minValues, maxValues, disabled);
    OptionalStepsFrame(d, placeholder, minValues, maxValues, disabled);
    OptionalStepsKeep(d, placeholder, minValues, maxValues, disabled);
    PutIfTruthy(PutIfTruthy(PutIfTruthy(PutIfTruthy(d, "placeholder", placeholder),
      "min_values", minValues), "max_values", maxValues), "disabled", disabled)
  }

  /** The four `PutIfTruthy` steps add exactly the truthy optional keys. */
  lemma OptionalStepsKeys(d: map<string, Json>, placeholder: Json, minValues: Json, maxValues: Json, disabled: Json)
    ensures PutIfTruthy(PutIfTruthy(PutIfTruthy(PutIfTruthy(d, "placeholder", placeholder),
      "min_values", minValues), "max_values", maxValues), "disabled", disabled).Keys
      == d.Keys + TruthyKeys(placeholder, minValues, maxValues, disabled)
  {
    var d1 := PutIfTruthy(d, "placeholder", placeholder);
    var d2 := PutIfTruthy(d1, "min_values", minValues);
    var d3 := PutIfTruthy(d2, "max_values", maxValues);
    UnionRegroups(d.Keys, KeyIfTruthy("placeholder", placeholder), KeyIfTruthy("min_values", minValues),
      KeyIfTruthy("max_values", maxValues), KeyIfTruthy("disabled", disabled));
  }

  /** Adding four sets one after another adds their union. */
  lemma UnionRegroups(s: set<string>, a: set<string>, b: set<string>, c: set<string>, e: set<string>)
    ensures s + a + b + c + e == s + (a + b + c + e)
  {
  }

  /** The four `PutIfTruthy` steps leave the keys already present alone. */
  lemma OptionalStepsFrame(d: map<string, Json>, placeholder: Json, minValues: Json, maxValues: Json, disabled: Json)
    ensures var r := PutIfTruthy(PutIfTruthy(PutIfTruthy(PutIfTruthy(d, "placeholder", placeholder),
      "min_values", minValues), "max_values", maxValues), "disabled", disabled);
      forall k :: k in d && k !in OptionalNames ==> r[k] == d[k]
  {
    var d1 := PutIfTruthy(d, "placeholder", placeholder);
    var d2 := PutIfTruthy(d1, "min_values", minValues);
    var d3 := PutIfTruthy(d2, "max_values", maxValues);
    var d4 := PutIfTruthy(d3, "disabled", disabled);
    forall k | k in d && k !in OptionalNames
      ensures d4[k] == d[k]
    {
      assert k != "placeholder" && k != "min_values" && k != "max_values" && k != "disabled";
    }
  }

  /** The four `PutIfTruthy` steps leave each optional key as its own step set it. */
  lemma OptionalStepsKeep(d: map<string, Json>, placeholder: Json, minValues: Json, maxValues: Json, disabled: Json)
    requires d.Keys !! OptionalNames
    ensures var r := PutIfTruthy(PutIfTruthy(PutIfTruthy(PutIfTruthy(d, "placeholder", placeholder),
      "min_values", minValues), "max_values", maxValues), "disabled", disabled);
      OptionalKey(r, "placeholder", placeholder) && OptionalKey(r, "min_values", minValues)
      && OptionalKey(r, "max_values", maxValues) && OptionalKey(r, "disabled", disabled)
  {
    var d1 := PutIfTruthy(d, "placeholder", placeholder);
    var d2 := PutIfTruthy(d1, "min_values", minValues);
    var d3 := PutIfTruthy(d2, "max_values", maxValues);
    var d4 := PutIfTruthy(d3, "disabled", disabled);
    assert "placeholder" != "min_values" && "placeholder" != "max_values" && "placeholder" != "disabled";
    assert "min_values" != "max_values" && "min_values" != "disabled" && "max_values" != "disabled";
    assert OptionalKey(d1, "placeholder", placeholder);
    assert OptionalKey(d2, "min_values", minValues);
    assert OptionalKey(d3, "max_values", maxValues);
  }

  /** The keys the omit-when-falsy serialisers may add. */
  const OptionalNames: set<string> := {"placeholder", "min_values", "max_values", "disabled"}

  /** What the omit-when-falsy serialisers promise about one optional key. */
  ghost predicate OptionalKey(r: map<string, Json>, key: string, v: Json) {
    (key in r <==> Truthy(v)) && (key in r ==> r[key] == v)
  }

  /** The set of optional keys whose values are truthy. */
  function TruthyKeys(placeholder: Json, minValues: Json, maxValues: Json, disabled: Json): (r: set<string>)
    ensures r <= OptionalNames
  {
    KeyIfTruthy("placeholder", placeholder) + KeyIfTruthy("min_values", minValues)
    + KeyIfTruthy("max_values", maxValues) + KeyIfTruthy("disabled", disabled)
  }

  /** Each option serialised in turn, as the list comprehension does. */
  function ChoiceDicts(options: seq<Choice>): (r: seq<Json>)
    ensures |r| == |options|
    ensures forall i :: 0 <= i < |options| ==> r[i] == ChoiceDict(options[i])
  {
    seq(|options|, i requires 0 <= i < |options| => ChoiceDict(options[i]))
  }

  /** `SelectMenu.to_dict` with each option serialised as the `Choice` dict:
      type 3, the custom id, the options in order, and the optional keys
      only when truthy. */
  function SelectMenuDict(m: SelectMenu): (r: map<string, Json>)
    ensures r.Keys == {"type", "custom_id", "options"}
      + TruthyKeys(m.placeholder, m.minValues, m.maxValues, m.disabled)
    ensures r["type"] == JInt(3) && r["custom_id"] == JStr(m.customId)
    ensures r["options"].JArr? && |r["options"].items| == |m.options|
    ensures forall i :: 0 <= i < |m.options| ==> r["options"].items[i] == ChoiceDict(m.options[i])
    ensures OptionalKey(r, "placeholder", m.placeholder) && OptionalKey(r, "min_values", m.minValues)
    ensures OptionalKey(r, "max_values", m.maxValues) && OptionalKey(r, "disabled", m.disabled)
  {
    var base := map["type" := JInt(3), "custom_id" := JStr(m.customId), "options" := JArr(ChoiceDicts(m.options))];
    assert base.Keys == {"type", "custom_id", "options"};
    assert base.Keys !! OptionalNames;
    OptionalKeys(base, m.placeholder, m.minValues, m.maxValues, m.disabled)
  }

  /** `SelectMenu.to_dict` as written: it calls `to_dict()` on each option,
      which gatepoint/option.py's `Choice` does not define, so any non-empty
      option list raises AttributeError. */
  function SelectMenuDictAsWritten(m: SelectMenu): (r: Result<map<string, Json>, PyError>)
    ensures r.Ok? <==> |m.options| == 0
  {
    if |m.options| > 0 then Err(AttributeError)
    else
      var base := map["type" := JInt(3), "custom_id" := JStr(m.customId), "options" := JArr([])];
      assert base.Keys !! OptionalNames;
      Ok(OptionalKeys(base, m.placeholder, m.minValues, m.maxValues, m.disabled))
  }

  /** The written serialiser fails for every menu with a choice and agrees
      with the corrected one on menus without choices. */
  lemma SelectMenuAsWrittenDiscrepancy(m: SelectMenu)
    ensures |m.options| > 0 ==> SelectMenuDictAsWritten(m) == Err(AttributeError)
    ensures |m.options| == 0 ==> SelectMenuDictAsWritten(m) == Ok(SelectMenuDict(m))
  {
    if |m.options| == 0 {
      assert ChoiceDicts(m.options) == [];
    }
  }

  /** A menu with one choice, the smallest input that shows the failure. */
  lemma SelectMenuOneChoiceFails()
    ensures SelectMenuDictAsWritten(NewSelectMenu("pick", [Choice("a", "1")])).Err?
    ensures |SelectMenuDict(NewSelectMenu("pick", [Choice("a", "1")]))["options"].items| == 1
  {
  }

  /** A user select; its limits default to 1. */
  datatype UserSelect = UserSelect(customId: string, placeholder: Json, minValues: Json, maxValues: Json, disabled: Json)

  /** `UserSelect(custom_id)` with the constructor's defaults. */
  function NewUserSelect(customId: string): (u: UserSelect)
    ensures u.customId == customId
    ensures u.minValues == JInt(1) && u.maxValues == JInt(1)
    ensures !Truthy(u.placeholder) && !Truthy(u.disabled)
  {
    UserSelect(customId, JNull, JInt(1), JInt(1), JBool(false))
  }

  /** `UserSelect.to_dict`: type 5, no options, optional keys only when truthy. */
  function UserSelectDict(u: UserSelect): (r: map<string, Json>)
    ensures r.Keys == {"type", "custom_id"} + TruthyKeys(u.placeholder, u.minValues, u.maxValues, u.disabled)
    ensures r["type"] == JInt(5) && r["custom_id"] == JStr(u.customId)
    ensures "options" !in r
    ensures OptionalKey(r, "placeholder", u.placeholder) && OptionalKey(r, "min_values", u.minValues)
    ensures OptionalKey(r, "max_values", u.maxValues) && OptionalKey(r, "disabled", u.disabled)
  {
    var base := map["type" := JInt(5), "custom_id" := JStr(u.customId)];
    assert base.Keys == {"type", "custom_id"};
    assert base.Keys !! OptionalNames && "options" !in OptionalNames;
    OptionalKeys(base, u.placeholder, u.minValues, u.maxValues, u.disabled)
  }

  /** Adding an optional key commutes with setting or removing any other key. */
  lemma PutIfTruthyCommutes(d: map<string, Json>, key: string, v: Json, other: string, w: Json)
    requires other != key
    ensures PutIfTruthy(d, key, v)[other := w] == PutIfTruthy(d[other := w], key, v)
    ensures PutIfTruthy(d, key, v) - {other} == PutIfTruthy(d - {other}, key, v)
  {
    if Truthy(v) {
      UpdatesCommute(d, key, v, other, w);
    }
  }

  /** Setting two different keys, in either order; and setting one, then removing the other. */
  lemma UpdatesCommute(d: map<string, Json>, key: string, v: Json, other: string, w: Json)
    requires other != key
    ensures d[key := v][other := w] == d[other := w][key := v]
    ensures d[key := v] - {other} == (d - {other})[key := v]
  {
    var a := d[key := v][other := w];
    var b := d[other := w][key := v];
    assert a.Keys == b.Keys;
    var e := d[key := v] - {other};
    var f := (d - {other})[key := v];
    assert e.Keys == f.Keys;
  }

  /** The optional keys commute with setting a key that is not optional. */
  lemma OptionalKeysUpdate(d: map<string, Json>, other: string, w: Json,
                           placeholder: Json, minValues: Json, maxValues: Json, disabled: Json)
    requires d.Keys !! OptionalNames && other !in OptionalNames
    ensures OptionalKeys(d, placeholder, minValues, maxValues, disabled)[other := w]
         == OptionalKeys(d[other := w], placeholder, minValues, maxValues, disabled)
  {
    var d1 := PutIfTruthy(d, "placeholder", placeholder);
    var d2 := PutIfTruthy(d1, "min_values", minValues);
    var d3 := PutIfTruthy(d2, "max_values", maxValues);
    PutIfTruthyCommutes(d, "placeholder", placeholder, other, w);
    PutIfTruthyCommutes(d1, "min_values", minValues, other, w);
    PutIfTruthyCommutes(d2, "max_values", maxValues, other, w);
    PutIfTruthyCommutes(d3, "disabled", disabled, other, w);
  }

  /** The optional keys commute with removing a key that is not optional. */
  lemma OptionalKeysRemove(d: map<string, Json>, other: string,
                           placeholder: Json, minValues: Json, maxValues: Json, disabled: Json)
    requires d.Keys !! OptionalNames && other !in OptionalNames
    ensures OptionalKeys(d, placeholder, minValues, maxValues, disabled) - {other}
         == OptionalKeys(d - {other}, placeholder, minValues, maxValues, disabled)
  {
    var d1 := PutIfTruthy(d, "placeholder", placeholder);
    var d2 := PutIfTruthy(d1, "min_values", minValues);
    var d3 := PutIfTruthy(d2, "max_values", maxValues);
    PutIfTruthyCommutes(d, "placeholder", placeholder, other, JNull);
    PutIfTruthyCommutes(d1, "min_values", minValues, other, JNull);
    PutIfTruthyCommutes(d2, "max_values", maxValues, other, JNull);
    PutIfTruthyCommutes(d3, "disabled", disabled, other, JNull);
  }

  /** A user select serialises as a string select with the same fields would,
      with type 5 in place of 3 and no `options` key. */
  lemma UserSelectIsSelectMenu(u: UserSelect)
    ensures UserSelectDict(u)
      == (SelectMenuDict(SelectMenu(u.customId, [], u.placeholder, u.minValues, u.maxValues, u.disabled))
          - {"options"})["type" := JInt(5)]
  {
    var base := map["type" := JInt(3), "custom_id" := JStr(u.customId), "options" := JArr(ChoiceDicts([]))];
    assert base.Keys == {"type", "custom_id", "options"};
    assert base.Keys !! OptionalNames;
    assert "options" !in OptionalNames && "type" !in OptionalNames;
    OptionalKeysRemove(base, "options", u.placeholder, u.minValues, u.maxValues, u.disabled);
    OptionalKeysUpdate(base - {"options"}, "type", JInt(5), u.placeholder, u.minValues, u.maxValues, u.disabled);
    assert "type" != "custom_id" && "options" != "type" && "options" != "custom_id";
    SwapBase("type", "custom_id", "options", JInt(3), JInt(5), JStr(u.customId), JArr(ChoiceDicts([])));
  }

  /** Dropping one key of a three-key dict and overwriting another leaves a two-key dict. */
  lemma SwapBase(kt: string, kc: string, ko: string, t: Json, t': Json, c: Json, o: Json)
    requires kt != kc && ko != kt && ko != kc
    ensures (map[kt := t, kc := c, ko := o] - {ko})[kt := t'] == map[kt := t', kc := c]
  {
  }

  /** A default user select serialises with both limits and nothing else optional. */
  lemma UserSelectDefaults(customId: string)
    ensures UserSelectDict(NewUserSelect(customId)).Keys == {"type", "custom_id", "min_values", "max_values"}
    ensures UserSelectDict(NewUserSelect(customId))["min_values"] == JInt(1)
  {
  }

  /** The three select kinds that always serialise every field. */
  datatype FixedKind = RoleKind | MentionableKind | ChannelKind {

    /** The component type Discord uses for the kind. */
    function TypeCode(): (r: int)
      ensures 6 <= r <= 8
    {
      match this
      case RoleKind => 6
      case MentionableKind => 7
      case ChannelKind => 8
    }
  }

  /** A role, mentionable or channel select. */
  datatype FixedSelect = FixedSelect(
    kind: FixedKind,
    customId: string,
    placeholder: Json,
    minValues: Json,
    maxValues: Json,
    disabled: Json)

  /** `RoleSelect`, `MentionableSelect` or `ChannelSelect` with the defaults. */
  function NewFixedSelect(kind: FixedKind, customId: string): (s: FixedSelect)
    ensures s.kind == kind && s.customId == customId
    ensures s.placeholder == JNull && s.minValues == JInt(1) && s.maxValues == JInt(1) && s.disabled == JBool(false)
  {
    FixedSelect(kind, customId, JNull, JInt(1), JInt(1), JBool(false))
  }

  /** `to_dict` of the three fixed-shape selects: always six keys, values verbatim. */
  function FixedSelectDict(s: FixedSelect): (r: map<string, Json>)
    ensures r.Keys == {"type", "custom_id", "placeholder", "min_values", "max_values", "disabled"}
    ensures r["type"] == JInt(s.kind.TypeCode()) && r["custom_id"] == JStr(s.customId)
    ensures r["placeholder"] == s.placeholder && r["min_values"] == s.minValues
    ensures r["max_values"] == s.maxValues && r["disabled"] == s.disabled
  {
    map[
      "type" := JInt(s.kind.TypeCode()),
      "custom_id" := JStr(s.customId),
      "placeholder" := s.placeholder,
      "min_values" := s.minValues,
      "max_values" := s.maxValues,
      "disabled" := s.disabled]
  }

  /** The kinds are told apart by their type code alone, and a default
      fixed select still carries a `None` placeholder. */
  lemma FixedSelectKinds(a: FixedSelect, b: FixedSelect)
    ensures FixedSelectDict(a)["type"] == FixedSelectDict(b)["type"] <==> a.kind == b.kind
    ensures |FixedSelectDict(a)| == 6
    ensures FixedSelectDict(NewFixedSelect(a.kind, a.customId))["placeholder"] == JNull
  {
    var keys := {"type", "custom_id", "placeholder", "min_values", "max_values", "disabled"};
    assert |keys| == 6;
  }

  /** The same field values serialise to different shapes: the omit-when-falsy
      classes drop a `False` disabled flag that the fixed-shape ones keep. */
  lemma FalsyFieldsDifferByClass(customId: string)
    ensures "disabled" !in UserSelectDict(NewUserSelect(customId))
    ensures FixedSelectDict(NewFixedSelect(RoleKind, customId))["disabled"] == JBool(false)
    ensures "min_values" !in SelectMenuDict(NewSelectMenu(customId, []).(minValues := JInt(0)))
  {
  }
}
