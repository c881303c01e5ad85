/** The WinForms value types and enumerations the browser window reads and
    writes. Only their values are modelled; the toolkit's behaviour is not. */
module Toolkit {

  datatype Size = Size(width: int, height: int)

  datatype Point = Point(x: int, y: int)

  /** A screen or window rectangle (`Bounds`): its top-left corner and extent. */
  datatype Rect = Rect(location: Point, size: Size)

  /** `FormWindowState`. */
  datatype WindowState = Normal | Minimized | Maximized

  /** `FormBorderStyle`, in the order of its numeric values: `Borderless` is the
      enumeration's `None`, value 0, and `Sizable` (4) is a new form's default. */
  datatype BorderStyle =
    | Borderless
    | FixedSingle
    | Fixed3D
    | FixedDialog
    | Sizable
    | FixedToolWindow
    | SizableToolWindow

  /** `DialogResult`: what a modal message box or file dialog reports when it closes.
      `NoResult` is the enumeration's `None`. */
  datatype DialogResult = NoResult | OK | Cancel | Abort | Retry | Ignore | Yes | No

  /** The screens relevant to entering fullscreen: the primary display, and the
      display currently holding the window (`Screen.FromControl`). */
  datatype Screens = Screens(primary: Rect, current: Rect)

  /** A key press as the browser control reports it: the key code without
      modifiers and the modifier bits held down. */
  datatype KeyEvent = KeyEvent(keyCode: int, modifiers: int)

  /** `Keys` values: key codes and modifier bits. */
  const BackKey: int := 0x08
  const KeyC: int := 0x43
  const KeyV: int := 0x56
  const KeyX: int := 0x58
  const KeyZ: int := 0x5A
  const ShiftModifier: int := 0x1_0000
  const ControlModifier: int := 0x2_0000
  const AltModifier: int := 0x4_0000
}
