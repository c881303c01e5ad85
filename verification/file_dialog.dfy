/** `BrowserView.create_file_dialog`: choose the start directory, configure one of
    three native dialogs, and turn how it closed into the value handed back.
    Showing the dialog is an input: a function from the configured dialog to what
    the user did with it, or to the exception showing it raised. */
module FileDialog {
  import opened Wrappers
  import opened Toolkit

  /** The `dialog_type` argument: one of the three dialog constants, or any
      other value. */
  datatype Kind = FolderDialog | OpenDialog | SaveDialog | Unrecognised

  /** A native dialog as configured just before it is shown. */
  datatype Picker =
    | FolderPicker
    | OpenPicker(multiselect: bool, initialDirectory: string)
    | SavePicker(initialDirectory: string, fileName: string)

  /** How showing a dialog ended: it closed with a result, leaving its selection
      properties (`SelectedPath`, `FileNames`, `FileName`) behind, or it raised. */
  datatype Outcome =
    | Closed(result: DialogResult, selectedPath: string, fileNames: seq<string>, fileName: string)
    | Raised

  /** The value returned: `None`, a tuple of paths, or a single path. */
  datatype Selection = NoSelection | Paths(paths: seq<string>) | Path(path: string)

  /** An exception that escapes the call. */
  datatype Error = KeyError(key: string)

  /** The environment variable an empty directory defaults to. */
  const HomeVariable: string := "HOMEPATH"

  /** The user confirmed the dialog. */
  predicate Accepted(o: Outcome) {
    o.Closed? && o.result == OK
  }

  /** The start directory: the given one, or the home path when it is empty. The
      lookup happens before the dialog's exception guard, so a missing variable
      escapes as `KeyError`. */
  function StartDirectory(directory: string, env: map<string, string>): (r: Result<string, Error>)
    ensures r.Failure? <==> directory == "" && HomeVariable !in env
    ensures r.Failure? ==> r.error == KeyError(HomeVariable)
    ensures r.Success? && directory != "" ==> r.value == directory
    ensures r.Success? && directory == "" ==> HomeVariable in env && r.value == env[HomeVariable]
  {
    if directory != "" then Success(directory)
    else if HomeVariable in env then Success(env[HomeVariable])
    else Failure(KeyError(HomeVariable))
  }

  /** The dialog a kind configures; the folder picker ignores the start
      directory, and an unrecognised kind configures none. */
  function PickerFor(kind: Kind, start: string, allowMultiple: bool, saveFilename: string): Option<Picker> {
    match kind
    case FolderDialog => Some(FolderPicker)
    case OpenDialog => Some(OpenPicker(allowMultiple, start))
    case SaveDialog => Some(SavePicker(start, saveFilename))
    case Unrecognised => None
  }

  /** The value a configured dialog yields once shown. */
  function Collect(picker: Picker, o: Outcome): Selection {
    if !Accepted(o) then NoSelection
    else
      match picker
      case FolderPicker => Paths([o.selectedPath])
      case OpenPicker(_, _) => Paths(o.fileNames)
      case SavePicker(_, _) => Path(o.fileName)
  }

  /** `create_file_dialog`. Only the home-path lookup can raise; everything that
      goes wrong inside the guarded part, including an unrecognised kind (whose
      result variable is never bound), is reported as `None`. */
  function CreateFileDialog(
    kind: Kind, directory: string, allowMultiple: bool, saveFilename: string,
    env: map<string, string>, show: Picker -> Outcome): (r: Result<Selection, Error>)
    ensures r.Failure? <==> directory == "" && HomeVariable !in env
    ensures r.Failure? ==> r.error == KeyError(HomeVariable)
    ensures r.Success? && kind == Unrecognised ==> r.value == NoSelection
    ensures r.Success? && kind == FolderDialog ==>
              r.value == (if Accepted(show(FolderPicker)) then Paths([show(FolderPicker).selectedPath]) else NoSelection)
    ensures r.Success? && kind == OpenDialog ==>
              var o := show(OpenPicker(allowMultiple, StartDirectory(directory, env).value));
              r.value == (if Accepted(o) then Paths(o.fileNames) else NoSelection)
    ensures r.Success? && kind == SaveDialog ==>
              var o := show(SavePicker(StartDirectory(directory, env).value, saveFilename));
              r.value == (if Accepted(o) then Path(o.fileName) else NoSelection)
  {
    match StartDirectory(directory, env)
    case Failure(e) => Failure(e)
    case Success(start) =>
      match PickerFor(kind, start, allowMultiple, saveFilename)
      case None => Success(NoSelection)
      case Some(picker) => Success(Collect(picker, show(picker)))
  }

  /** `None` comes back exactly when there was no dialog to show, the dialog
      raised, or the user did not confirm it; a confirmed dialog always yields
      a selection. */
  lemma NoSelectionExactlyWhenNotAccepted(
    kind: Kind, directory: string, allowMultiple: bool, saveFilename: string,
    env: map<string, string>, show: Picker -> Outcome)
    requires directory != "" || HomeVariable in env
    ensures var r := CreateFileDialog(kind, directory, allowMultiple, saveFilename, env, show);
            var picker := PickerFor(kind, StartDirectory(directory, env).value, allowMultiple, saveFilename);
            && r.Success?
            && (r.value == NoSelection <==> picker.None? || !Accepted(show(picker.value)))
  {
  }

  /** The open dialog is shown multi-select exactly when `allow_multiple` is
      given, so a dialog that honours single selection yields at most one path. */
  lemma SingleSelectionOpen(directory: string, saveFilename: string, env: map<string, string>, show: Picker -> Outcome)
    requires directory != "" || HomeVariable in env
    requires forall p: Picker :: p.OpenPicker? && !p.multiselect && show(p).Closed? ==> |show(p).fileNames| <= 1
    ensures var r := CreateFileDialog(OpenDialog, directory, false, saveFilename, env, show);
            r.Success? && (r.value.Paths? ==> |r.value.paths| <= 1)
  {
  }
}
