/**
 * The navigation dropdown: a stateless component that turns pointer events
 * into the `onOpen`/`onClose` callbacks its owner passes in, and lists its
 * items only while open.
 */
module Dropdown {
  import opened Common
  import opened ClassNames

  datatype Variant = Desktop | Mobile

  /** The events the component listens to: hover on desktop, click on mobile. */
  datatype PointerEvent = MouseEnter | MouseLeave | Click

  datatype Callback = OnOpen | OnClose

  /** `variant = 'desktop'`: an absent prop is the desktop variant. */
  function EffectiveVariant(prop: Option<Variant>): (r: Variant)
    ensures prop.None? ==> r == Desktop
    ensures prop.Some? ==> r == prop.value
  {
    if prop.None? then Desktop else prop.value
  }

  /** The callback an event calls, if any. */
  function Handler(variant: Variant, isOpen: bool, event: PointerEvent): (r: Option<Callback>)
    ensures variant == Desktop ==> (event == MouseEnter <==> r == Some(OnOpen))
    ensures variant == Desktop ==> (event == MouseLeave <==> r == Some(OnClose))
    ensures variant == Mobile ==> (event == Click <==> r.Some?)
    ensures variant == Mobile && event == Click ==> r == Some(if isOpen then OnClose else OnOpen)
  {
    match variant
    case Desktop =>
      (match event
       case MouseEnter => Some(OnOpen)
       case MouseLeave => Some(OnClose)
       case Click => None)
    case Mobile =>
      if event == Click then Some(if isOpen then OnClose else OnOpen) else None
  }

  /** On desktop the callback never depends on whether the menu is open. */
  lemma DesktopIgnoresOpenState(event: PointerEvent)
    ensures Handler(Desktop, true, event) == Handler(Desktop, false, event)
  {
  }

  /** The items rendered under the button: all of them, in order, while open; none while closed. */
  function VisibleItems(items: seq<string>, isOpen: bool): (r: seq<string>)
    ensures isOpen ==> r == items
    ensures !isOpen ==> r == []
  {
    if isOpen then items else []
  }

  /** The mobile chevron's classes: rotated exactly while open. */
  function ChevronClass(isOpen: bool): string
  {
    Cn([Str("w-4 h-4 transition-transform"), Str(if isOpen then "rotate-180" else "")])
  }

  lemma ChevronRotatesWhenOpen(isOpen: bool)
    ensures ChevronClass(isOpen) == if isOpen then "w-4 h-4 transition-transform rotate-180" else "w-4 h-4 transition-transform"
  {
    ConditionalPair("w-4 h-4 transition-transform", if isOpen then "rotate-180" else "");
  }

  lemma ConditionalPair(a: string, b: string)
    requires a != ""
    ensures Cn([Str(a), Str(b)]) == if b == "" then a else a + " " + b
  {
    var c := [Str(a), Str(b)];
    assert c[1..] == [Str(b)];
    assert c[1..][1..] == [];
    if b == "" {
      assert Kept(c) == [a];
    } else {
      assert Kept(c) == [a, b];
      assert [a, b][1..] == [b];
      assert Join([b], " ") == b;
      assert Join([a, b], " ") == a + " " + b;
    }
  }
}
