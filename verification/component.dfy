/** gatepoint/components/component.py: the `ActionRow` container. */
module Components {
  import opened Wrappers
  import opened Json
  import Buttons
  import Menus

  /** Anything an action row may hold. */
  datatype Component =
    | ButtonComponent(button: Buttons.Button)
    | MenuComponent(menu: Menus.SelectMenu)
    | UserComponent(user: Menus.UserSelect)
    | FixedComponent(fixed: Menus.FixedSelect)

  /** Discord's limit on components in one row. */
  const MaxRowComponents := 5

  const RowMessage := "You can only have 5 components per row"

  /** A constructed row. */
  datatype ActionRow = ActionRow(components: seq<Component>)

  /** `ActionRow(*components)`: at most five, kept in order. */
  function NewActionRow(components: seq<Component>): (r: Result<ActionRow, PyError>)
    ensures r.Ok? <==> |components| <= MaxRowComponents
    ensures r.Ok? ==> r.value.components == components
    ensures r.Err? ==> r.error == ValueError(RowMessage)
  {
    if |components| > 5 then Err(ValueError(RowMessage)) else Ok(ActionRow(components))
  }

  /** Only the number of components matters: every kind counts the same. */
  lemma RowBoundIgnoresKinds(a: seq<Component>, b: seq<Component>)
    requires |a| == |b|
    ensures NewActionRow(a).Ok? == NewActionRow(b).Ok?
  {
  }

  /** Five components make a row, six do not. */
  lemma RowBoundIsFive(c: Component)
    ensures NewActionRow([c, c, c, c, c]).Ok?
    ensures NewActionRow([c, c, c, c, c, c]) == Err(ValueError(RowMessage))
  {
  }
}
