# pywebview WinForms window, modelled in Dafny

This project models the Windows Forms backend of pywebview (`webview/winforms.py`).
The model covers the state machine of the window class `BrowserView.BrowserForm`
and the way `BrowserView.create_file_dialog` maps a dialog's outcome to the value
it returns.

- `Toolkit` (`toolkit.dfy`) holds the WinForms values the window touches.
  These are sizes, points, rectangles, `FormWindowState`, `FormBorderStyle`,
  `DialogResult` and the `Keys` codes and modifier bits.
- `BrowserForm` (`browser_form.dfy`) models the form as an immutable record with
  one pure function per event handler. `is_fullscreen` and the four `old_*`
  fields become one field, `mode`, which is `Windowed` or `Fullscreen(saved)`.
  A snapshot therefore exists exactly while the window is fullscreen. A handler
  returns the new form plus the outward actions it performed, in order. Those
  actions are: navigating the browser, sending an edit command to the document,
  cancelling a navigation, writing `TopMost`, and calling Win32 `SetWindowPos`.
  `Run` delivers a sequence of events to their handlers.
- `FormProperties` (`form_properties.dfy`) proves facts about whole event
  sequences: one-shot flags, the fullscreen round trip, idempotent writes, and
  what the constructor establishes.
- `FileDialog` (`file_dialog.dfy`) models `create_file_dialog`. Showing the
  native dialog is an input: a function from the configured dialog to how it
  ended (closed with a `DialogResult` and its selection properties, or raised).
- `Wrappers` (`wrappers.dfy`) holds `Option` and `Result`.

Modelling choices:
- Toolkit properties are independent fields. Setting one never changes another,
  with one exception. Assigning `Bounds` sets the size and the location, because
  that is what `Bounds` is. How the real toolkit couples its properties is not
  part of this model.
- Entering fullscreen gives the form the primary screen's bounds. It then calls
  `SetWindowPos` with the bounds of the screen the window is on. That call is
  recorded as a `PositionWindow` effect. Its effect on the form's fields is not
  modelled.
- `ClientSize` and `Size` are one field. The constructor always leaves the form
  borderless, so there is no window chrome to separate them.
- The dialog-type constants are defined in `webview/__init__.py`, which is not
  part of this model. They are an enumeration with an extra `Unrecognised` case
  for any other value.
- An empty `url` or `directory` stands for any false Python value.
- The caller's `ready` event may already be set when the window is created. The
  constructor only stores it, so its starting state is part of the configuration.

Places where the code does more or less than pywebview's API documentation
promises. The model follows the code in each case:
- The constructor always ends with border style `None` (value 0). Line 49
  overwrites the `FixedSingle` that line 46 sets for non-resizable windows. So
  `resizable` only controls `MaximizeBox`.
- `create_file_dialog` reads `HOMEPATH` before entering its exception guard. When
  the directory is empty and the variable is missing, a `KeyError` escapes the
  call. Every other failure becomes `None`.
- The window title is never shown: the form's `Text` is set to `None`.

## Model

| member | source | states |
|---|---|---|
| BrowserForm.ToggleFullscreen | webview/winforms.py:119-141 | Entering saves size, window state, border style and location. It then sets the border to `None`, takes the primary screen's bounds, maximises, and issues one `SetWindowPos` with the current screen's bounds and the style flags. Leaving restores the four saved values and issues nothing. The fullscreen flag always flips, and no other field changes. |
| BrowserForm.Construct | webview/winforms.py:33-85 | After construction the border style is `None` whether or not the window is resizable. `MaximizeBox` is on iff resizable, and `TopMost` is on. The style flags, minimum size and background colour are the configured ones. The window is fullscreen iff configured so. Then its size and location are the primary screen's, and the saved snapshot is the configured size, `Normal`, `None` and the start location. The browser is hidden, first load pending, nothing armed. `ready` is exactly as the caller's event was handed over. The closing hook exists iff `confirm_quit`. The effects are exactly the initial navigation when a URL is given, followed by one `SetWindowPos` with the configured flags when starting fullscreen. |
| BrowserForm.InitAsWritten | webview/winforms.py:41-42 | As written, the window's location (or the location saved for leaving the initial fullscreen) is whatever the toolkit chose, not the configured (x, y). |
| BrowserForm.Init | webview/winforms.py:33-85 | The corrected constructor puts the window at the configured (x, y), or saves (x, y) as the location to return to when it starts fullscreen. |
| BrowserForm.OnShown | webview/winforms.py:87-88 | Showing the window sets `ready` and changes nothing else. |
| BrowserForm.CloseProceeds | webview/winforms.py:90-95 | Without `confirm_quit` a close always proceeds. With it, the close is cancelled exactly when the confirmation box answers Cancel. |
| BrowserForm.OnPreviewKeyDown | webview/winforms.py:97-107 | Backspace, with any modifiers, arms the cancel-back flag and sends no command. Control alone with C, X, V or Z sends exactly Copy, Cut, Paste or Undo, from an independent shortcut table, and leaves the form unchanged. Any other key, including Control+Shift+C, does nothing. |
| BrowserForm.OnNavigating | webview/winforms.py:109-112 | The only effect is one cancellation, exactly when the flag is armed. The flag is always clear afterwards, and nothing else changes. |
| BrowserForm.OnDocumentCompleted | webview/winforms.py:114-117 | The first completed load makes the browser visible. Later completions change nothing. Visibility never goes back to false, and no other field changes. |
| BrowserForm.SetTopMost | webview/winforms.py:150-152 | Afterwards `TopMost` equals the requested value and nothing else has changed. `TopMost` is written, once, iff the value differed. |
| BrowserForm.GetWindowPos | webview/winforms.py:147-148 | Returns a two-element list whose entries are the form's location. |
| BrowserForm.Dispatch | webview/winforms.py:70-79 | Delivering any one event performs at most one outward action. `ready` ends set iff it was set or the event is the shown event. |
| BrowserForm.Run | webview/winforms.py:70-79 | A sequence of events performs at most one outward action per event. |
| FormProperties.ReadyExactlyAfterShown | webview/winforms.py:87-88 | Over any event sequence, `ready` ends set iff it was set before or the sequence contains a shown event. It is never set earlier and never cleared. |
| FormProperties.VisibleExactlyAfterFirstLoad | webview/winforms.py:114-117 | Over any event sequence, the browser ends visible iff it was visible before or a load completed. Visibility and the first-load flag stay in step throughout. |
| FormProperties.ArmedFlagCancelsOnce | webview/winforms.py:97-112 | With no Backspace in the sequence, an armed flag cancels exactly one navigation if one arrives, and none otherwise. It stays armed iff no navigation arrives. An unarmed flag cancels nothing. |
| FormProperties.OnlyFirstNavigationCancelled | webview/winforms.py:97-112 | After a Backspace, the first navigation that follows is the one cancelled. The flag is then clear, and later navigations go through until the next Backspace. |
| FormProperties.ToggleTwiceRestores | webview/winforms.py:119-141 | From a windowed form, toggling fullscreen twice returns exactly the original form, whatever the screens. The only outward action is the single `SetWindowPos` on entry. |
| FormProperties.SetTopMostTwice | webview/winforms.py:150-152 | Setting the same topmost value twice writes `TopMost` once if it differed and never if it already held. |
| FormProperties.LeavingInitialFullscreen | webview/winforms.py:84-85 | Wherever the window was placed, leaving the fullscreen it was created in gives the form that the same configuration without fullscreen creates. This covers both the constructor as written and the corrected one. |
| FormProperties.InitPlacesWindow | webview/winforms.py:41-42 | With the corrected constructor, `get_window_pos` reports the configured (x, y). It does so right away, or after leaving the initial fullscreen. |
| FormProperties.InitAsWrittenIgnoresPosition | webview/winforms.py:41-42 | As written, the constructed form does not depend on the configured x and y at all. |
| FormProperties.InitAsWrittenMisplaces | webview/winforms.py:41-42 | Take a window configured at (100, 50) that the toolkit puts at (0, 0). As written it reports (0, 0); corrected it reports (100, 50). |
| FileDialog.StartDirectory | webview/winforms.py:209-210 | A non-empty directory is used as given. An empty one becomes `HOMEPATH`, or raises `KeyError("HOMEPATH")` when that variable is unset. |
| FileDialog.CreateFileDialog | webview/winforms.py:208-253 | Raises only the home-path `KeyError`. On OK: the folder dialog gives a one-element tuple of the selected path, the open dialog gives the tuple of file names in order, and the save dialog gives the one file name. Cancel, any other result, a raising dialog, or an unrecognised kind gives `None`. The open dialog is multi-select iff `allow_multiple`. Open and save start in the resolved directory, and save is pre-filled with the given file name. |
| FileDialog.NoSelectionExactlyWhenNotAccepted | webview/winforms.py:212-253 | When the directory resolves, the call returns normally. It returns `None` iff there is no dialog for the kind, the dialog raised, or the user did not confirm it. |
| FileDialog.SingleSelectionOpen | webview/winforms.py:222-234 | Take an open dialog without `allow_multiple`, shown by a dialog that honours single selection. It returns at most one path. |

## Left out

- Thread creation, `Start`/`Join` and `Application.Run` in `show`: concurrency and the toolkit's event loop.
- `load_html` and its `InvokeRequired`/`Invoke` marshalling: the point of it is cross-thread dispatch.
- Icon extraction through `kernel32`/`shell32`/`user32`: foreign calls, and failures are ignored anyway.
- `set_window_pos`: its whole body is one Win32 `SetWindowPos` call, whose effect is opaque.
- The effect of `SetWindowPos` on size and location after entering fullscreen: only the call is recorded.
- WinForms property coupling: maximising does not change the modelled size, and the toolkit's `StartPosition` placement is an input.
- `MessageBox`, `FolderBrowserDialog`, `OpenFileDialog` and `SaveFileDialog` themselves: their outcome is an input.
- `ColorTranslator.FromHtml`, the localized strings and the dialog filter strings: they only forward to the toolkit. The background colour is kept as the given string.
- An exception from `Document.ExecCommand` (for example when no document is loaded): it escapes the key handler into the toolkit, which is not modelled.
- `load_url`, `get_current_url`, `destroy` and `set_ie_mode`: they only forward to the browser control or the registry.
- The `BrowserView.instance` singleton and the module-level forwarding functions: global plumbing with no logic.
- Logging of a failed dialog.

## Findings

| source | as written | input that shows it | evidently intended | confidence | as-written member | corrected member |
|---|---|---|---|---|---|---|
| webview/winforms.py:41-42 | The constructor assigns x and y to the coordinates of the `Point` value that `Location` returns. Python.NET returns that struct by copy, so the form's own location never changes. | x = 100, y = 50, with the toolkit placing the window at (0, 0): `get_window_pos` returns [0, 0]. | The window starts at the configured (x, y). | medium: depends on Python.NET's by-copy handling of .NET value types; not executed | BrowserForm.InitAsWritten | BrowserForm.Init |
