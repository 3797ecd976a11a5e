/** gatepoint/components/button.py: the validating `Button` constructor. */
module Buttons {
  import opened Wrappers
  import opened Json
  import Objects

  /** The longest `custom_id` Discord accepts. */
  const MaxCustomIdLength := 100

  /** The message the constructor raises with. */
  const CustomIdMessage := "custom_id: Must be more than 0 characters and less than 100 characters."

  /** A constructed button. */
  datatype Button = Button(labelText: string, customId: string, url: Option<string>, style: int)

  /** Python truthiness of an optional string. */
  predicate Given(s: Option<string>) {
    s.Some? && |s.value| > 0
  }

  /** The style a button ends up with: a link button is always style 5,
      otherwise the given style, with `None` and 0 meaning 1. */
  function DeriveStyle(url: Option<string>, style: Option<int>): (r: int)
    ensures Given(url) ==> r == Objects.ButtonStyle.Link.Value()
    ensures !Given(url) && style.Some? && style.value != 0 ==> r == style.value
    ensures !Given(url) && (style.None? || style.value == 0) ==> r == Objects.ButtonStyle.Primary.Value()
  {
    if Given(url) then 5
    else if style.Some? && style.value != 0 then style.value
    else 1
  }

  /** `Button(label, custom_id, url, style)`: rejects an empty or over-long
      `custom_id` before storing anything. */
  function NewButton(labelText: string, customId: string, url: Option<string>, style: Option<int>)
    : (r: Result<Button, PyError>)
    ensures r.Ok? <==> 0 < |customId| <= MaxCustomIdLength
    ensures r.Err? ==> r.error == ValueError(CustomIdMessage)
    ensures r.Ok? ==> r.value.labelText == labelText && r.value.customId == customId && r.value.url == url
    ensures r.Ok? ==> r.value.style == DeriveStyle(url, style)
  {
    if |customId| > 100 || |customId| == 0 then Err(ValueError(CustomIdMessage))
    else Ok(Button(labelText, customId, url, DeriveStyle(url, style)))
  }

  /** The bound is inclusive: 100 characters pass despite the message's
      "less than 100", and 101 do not. */
  lemma CustomIdBoundInclusive(labelText: string, customId: string, url: Option<string>, style: Option<int>)
    ensures |customId| == 100 ==> NewButton(labelText, customId, url, style).Ok?
    ensures |customId| == 101 ==> NewButton(labelText, customId, url, style).Err?
    ensures customId == [] ==> NewButton(labelText, customId, url, style) == Err(ValueError(CustomIdMessage))
  {
  }

  /** A url overrides any style argument, and the result is always a known style. */
  lemma LinkOverridesStyle(labelText: string, customId: string, url: Option<string>, s: Option<int>, t: Option<int>)
    requires 0 < |customId| <= MaxCustomIdLength
    requires Given(url)
    ensures NewButton(labelText, customId, url, s) == NewButton(labelText, customId, url, t)
    ensures Objects.ButtonStyleOf(NewButton(labelText, customId, url, s).value.style) == Some(Objects.ButtonStyle.Link)
  {
  }
}
