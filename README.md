# Effect descriptions of iced's native layer, modelled in Dafny

This project models the effect-description algebra of iced's `native` crate.
An update cycle returns a `Command` of `Action`s. Each action only describes
an effect: running a future, using the clipboard, controlling a window, or opening a
dialog. A future, a clipboard request and a dialog carry the handler that
turns the effect's result into an application message; a window request
carries none. The model covers:

- the dialog requests (`Dialog` module, from `native/src/dialog.rs`): message
  dialogs (confirmation and informational) and file dialogs (single file,
  several files, folder), with their options, builders and file filters. It
  also covers the `map` of each layer, which post-composes a message
  transformation onto every handler, and the fixed Debug strings of the
  variants;
- the top-level action (`CommandAction` module, from
  `native/src/command/action.rs`): the four-way union Future / Clipboard /
  Window / Dialog, its tag-preserving `map` and its Debug strings;
- the dialog functions that build a one-action command (`DialogCommand`
  module: `show_confirmation_dialog`, `show_informational_dialog`, `error`,
  `confirmation`, and the `From<Action>` conversion). They are in a module
  of their own because `dialog.rs` and `command/action.rs` refer to each
  other, and Dafny modules cannot refer to each other in a cycle.

Handlers are Dafny functions: `bool -> M`, `Option<Path> -> M`,
`seq<Path> -> M`, and `() -> T` for a future's eventual result. Dafny does
not treat two functions that agree on every argument as equal. So the two
functor laws are stated with `Equiv`, which means the values are observationally
equal: same tags, flags, options and text, and handlers that give the same
message for every argument. The laws are:

- mapping with the identity changes nothing;
- mapping with `f` and then `g` is the same as one map with `g` after `f`.

The clipboard and window requests are opaque types
(`CommandAction.ClipboardAction<T>`, `CommandAction.WindowAction`). The
clipboard request's own `map` is passed to `CommandAction.Action.Map` as a
function, and the window request is passed through. The Debug output of
the two options structs is derived, and the body text is rendered by the
standard library's Debug for `str` (quoted and escaped). These three
renderings are given to the renderers as functions (`Dialog.DebugFormat`).

A message dialog's body text is a required `Cow<str>`, not an `Option`
(`native/src/dialog.rs:27-32`). A clipboard action is always handed to
`clipboard::Action::map` (`native/src/command/action.rs:39`).

## Model

| member | source | states |
|---|---|---|
| `Dialog.MessageDialogOptions.Info` | native/src/dialog.rs:56-61 | severity Info, no title |
| `Dialog.MessageDialogOptions.Warning` | native/src/dialog.rs:64-69 | severity Warning, no title |
| `Dialog.MessageDialogOptions.Error` | native/src/dialog.rs:72-77 | severity Error, no title |
| `Dialog.MessageDialogOptions.WithTitle` | native/src/dialog.rs:80-85 | the title becomes `Some(title)` and the severity is unchanged |
| `Dialog.MessageDialogOptions.WithLevel` | native/src/dialog.rs:88-90 | the severity becomes the given level and the title is unchanged |
| `Dialog.PresetsAreInfoWithLevel` | native/src/dialog.rs:56-77 | the Warning and Error presets are the Info preset with only the level changed |
| `Dialog.MessageOptionSettersCommute` | native/src/dialog.rs:80-90 | setting title and level in either order gives the same options |
| `Dialog.MessageDialogVariant.Map` | native/src/dialog.rs:624-635 | the tag and `is_yes_no` are kept; the new handler gives `f(old(choice))` for both choices; an informational message is replaced by `f(message)` at once |
| `Dialog.MessageVariantMapIdentity` | native/src/dialog.rs:624-635 | mapping a message variant with the identity gives an observationally equal variant |
| `Dialog.MessageVariantMapComposition` | native/src/dialog.rs:624-635 | mapping with `f` then `g` is observationally equal to mapping once with `g` after `f` |
| `Dialog.MessageDialogVariant.DebugString` | native/src/dialog.rs:688-699 | the rendering is "Confirmation(Yes/No)" exactly for a yes/no confirmation, "Confirmation(Okay/Cancel)" exactly for any other confirmation, and "Informational" exactly for an informational dialog |
| `Dialog.Filter.New` | native/src/dialog.rs:507-512 | an owned filter whose `name()` and `extensions()` return exactly the given name and extensions |
| `Dialog.Filter.NewConst` | native/src/dialog.rs:482-487 | a static filter whose `name()` and `extensions()` return exactly the given name and extensions, in order |
| `Dialog.Filter.Name` | native/src/dialog.rs:515-520 | the stored name, whether the filter is owned or static |
| `Dialog.Filter.Extensions` | native/src/dialog.rs:523-530 | the stored extensions in their stored order; a static filter's list is copied element by element |
| `Dialog.FilterFormsAgree` | native/src/dialog.rs:507-530 | for the same name and extensions, owned and static filters give identical accessor results, and the extensions keep their order |
| `Dialog.BuiltinFilters` | native/src/dialog.rs:434-462 | the associated constants `Filter.ImageFiles`, `Filter.AudioFiles` and `Filter.TextFiles` (`IMAGE_FILES`, `AUDIO_FILES`, `TEXT_FILES`) are static filters named "Images", "Audio" and "Text" with exactly the listed extensions, in order |
| `Dialog.FileDialogOptions.New` | native/src/dialog.rs:346-348 | no filters; no initial directory, initial filename or title |
| `Dialog.FileDialogOptions.NewWithFilters` | native/src/dialog.rs:353-360 | exactly the given filters; every optional field is `None` |
| `Dialog.FileDialogOptions.AddFilter` | native/src/dialog.rs:363-366 | one more filter; the old filters are a prefix and the new filter is last; the other fields are unchanged |
| `Dialog.AddFilters` | native/src/dialog.rs:363-366 | a chain of `add_filter` calls appends the filters after the existing ones in call order and changes nothing else |
| `Dialog.NewWithAddedFilters` | native/src/dialog.rs:346-366 | filters added one by one to `new()` give the same options as `new_with_filters` with that sequence |
| `Dialog.FileDialogOptions.WithInitialDirectory` | native/src/dialog.rs:369-374 | only the initial directory changes, to `Some(path)` |
| `Dialog.FileDialogOptions.WithInitialFilename` | native/src/dialog.rs:377-382 | only the initial filename changes, to `Some(filename)` |
| `Dialog.FileDialogOptions.WithTitle` | native/src/dialog.rs:385-390 | only the title changes, to `Some(title)` |
| `Dialog.FileDialogVariant.Map` | native/src/dialog.rs:649-667 | the tag (single / multi / folder) and `is_save_dialog` are kept; for every path option or path sequence the new handler gives `f` of the old handler's message |
| `Dialog.FileVariantMapIdentity` | native/src/dialog.rs:649-667 | mapping a file variant with the identity gives an observationally equal variant |
| `Dialog.FileVariantMapComposition` | native/src/dialog.rs:649-667 | mapping with `f` then `g` is observationally equal to mapping once with `g` after `f`, for all three shapes |
| `Dialog.FileDialogVariant.DebugStringAsWritten` | native/src/dialog.rs:702-716 | as written: "SingleFileDialog(open)" exactly for a save dialog, "SingleFileDialog(save)" exactly for an open dialog, "MultiFileDialog" and "FolderSelectDialog" exactly for those shapes |
| `Dialog.FileDialogVariant.DebugString` | native/src/dialog.rs:702-716 | corrected: "SingleFileDialog(save)" exactly for a save dialog and "SingleFileDialog(open)" exactly for an open dialog; the other two shapes render their tag |
| `Dialog.Action.Map` | native/src/dialog.rs:597-604 | the dialog kind, the options and the body text are unchanged; only the variant is mapped |
| `Dialog.ActionMapIdentity` | native/src/dialog.rs:597-604 | functor identity law for dialog actions, up to observational equality |
| `Dialog.ActionMapComposition` | native/src/dialog.rs:597-604 | functor composition law for dialog actions, up to observational equality |
| `Dialog.ActionEquivIsEquivalence` | native/src/dialog.rs:597-667 | observational equality of dialog actions is reflexive, symmetric and transitive, so the laws can be chained |
| `Dialog.ActionMapRespectsEquiv` | native/src/dialog.rs:597-667 | mapping observationally equal dialog actions gives observationally equal results |
| `Dialog.SaveDialogRendersAsOpen` | native/src/dialog.rs:705-712 | as written, a save dialog renders as "SingleFileDialog(open)" and an open dialog as "SingleFileDialog(save)" |
| `Dialog.RenderingsDisagreeOnSingleFile` | native/src/dialog.rs:702-716 | the as-written and the corrected renderings differ exactly on single-file dialogs |
| `Dialog.Action.DebugString` | native/src/dialog.rs:671-685 | a message dialog renders as "MessageDialog(", the options' rendering, ", ", the variant's rendering, a space, the rendered body text and ")", with nothing in between; a file dialog renders as "FileDialog(", the options' rendering, ", ", the variant's as-written rendering and ")" |
| `Dialog.ActionEquivKeepsDebug` | native/src/dialog.rs:671-716 | observationally equal dialog actions render alike: no rendering reads a handler |
| `Dialog.ActionMapKeepsDebug` | native/src/dialog.rs:671-685 | a dialog action's rendering never depends on a handler, so mapping leaves it unchanged |
| `CommandAction.Action.Map` | native/src/command/action.rs:37-42 | the tag is kept; a future's result becomes `f(result)`; the clipboard request is given to its own map; the window request is returned unchanged; the dialog becomes the mapped dialog |
| `CommandAction.MapIdentity` | native/src/command/action.rs:37-42 | mapping with the identity (and the clipboard's identity) gives an observationally equal action |
| `CommandAction.MapComposition` | native/src/command/action.rs:37-42 | mapping twice is observationally equal to one map with the composed functions, for all four tags |
| `CommandAction.WindowPassesThrough` | native/src/command/action.rs:40 | `Window(w)` maps to `Window(w)` for every `f` |
| `CommandAction.Action.DebugString` | native/src/command/action.rs:46-56 | the rendering is "Action::Future" exactly for a future, whatever it computes; the other tags render as "Action::Clipboard(", "Action::Window(" or "Action::Dialog(" followed by the payload's rendering and then exactly one ")" |
| `CommandAction.MapKeepsDebug` | native/src/command/action.rs:46-56 | mapping keeps the rendering of future, window and dialog actions, and of a clipboard action whose mapped payload renders as before |
| `CommandAction.Command.Single` | native/src/dialog.rs:610 | a command holding exactly the given action |
| `DialogCommand.FromAction` | native/src/dialog.rs:608-612 | a dialog action converts to a command holding exactly one `Dialog` action with that dialog |
| `DialogCommand.ShowConfirmationDialog` | native/src/dialog.rs:139-150 | one dialog action with these options and text; a confirmation with the given `is_yes_no`, whose handler gives `on_close(true)` and `on_close(false)` |
| `DialogCommand.ShowInformationalDialog` | native/src/dialog.rs:198-205 | one dialog action with these options and text, informational with the given message |
| `DialogCommand.Error` | native/src/dialog.rs:231-236 | one untitled Error-level informational dialog with the given text and message |
| `DialogCommand.Confirmation` | native/src/dialog.rs:265-271 | one untitled Error-level confirmation with Okay/Cancel buttons (`is_yes_no` false) that hands the choice to `on_close` |
| `DialogCommand.MapAfterLifting` | native/src/command/action.rs:41 | mapping the command action built from a dialog gives the command action built from the mapped dialog, so options and text survive the outer map |

## Left out

- Running futures (`BoxFuture`, `FutureExt::map`, `Box::pin`): a future is the thunk that yields its eventual result. Polling, waking and never-resolving futures are not modelled.
- `clipboard::Action` and `window::Action` are not part of this model. Both are opaque types here. The clipboard request's map is given as a function.
- The `Command` type (`native/src/command.rs`) is not part of this model. Only the one-action command made by `Command::single` is modelled, as a one-element sequence. Batching and mapping whole commands are not modelled.
- The `rfd` backend that shows the dialogs, and the existence checks on selected paths: these are operating-system behaviour.
- Single use of handlers (`FnOnce`), `Box<dyn …>` and the `MaybeSend`/`Sync`/`'static` bounds: Rust checks these at compile time, and they have no run-time behaviour.
- `Cow` borrowed versus owned storage, `PathBuf` (a `Path` is a string here), and the `impl ToString` / `Into` conversions: these are value-preserving, so `with_title(t)` stores `t` itself.
- The derived Debug output of `MessageDialogOptions` and `FileDialogOptions`, the quoting of the body text, and the `fmt::Formatter` plumbing: these renderings are function parameters (`Dialog.DebugFormat`).
- Dialog.ActionMapIdentity: states the identity law up to `Equiv` rather than `==`, because Dafny function values are not extensional; the same holds for Dialog.MessageVariantMapIdentity and Dialog.FileVariantMapIdentity.
- Dialog.ActionMapComposition: states the composition law up to `Equiv` for the same reason; the same holds for Dialog.MessageVariantMapComposition and Dialog.FileVariantMapComposition.
- CommandAction.MapIdentity: up to `Equiv`, and assuming the clipboard's map with the identity is the identity.
- CommandAction.MapComposition: up to `Equiv`, with the clipboard's maps composed as functions. The model does not link the clipboard map to `f`.
- CommandAction.Action.Map: the clipboard map is an arbitrary function of the clipboard payload, not `clipboard::Action::map(f)`.

## Findings

| source | as written | input that shows it | evidently intended | confidence | as-written member | corrected member |
|---|---|---|---|---|---|---|
| native/src/dialog.rs:705-712 | `SingleFileDialog { is_save_dialog: true, .. }` is written as "SingleFileDialog(open)" and `is_save_dialog: false` as "SingleFileDialog(save)" | a save dialog, `SingleFileDialog(true, handler)` | a save dialog renders "(save)" and an open dialog "(open)" | not executed | `Dialog.SaveDialogRendersAsOpen` and `Dialog.RenderingsDisagreeOnSingleFile` (about `Dialog.FileDialogVariant.DebugStringAsWritten`, which `Dialog.Action.DebugString` uses, as the source does) | `Dialog.FileDialogVariant.DebugString`, whose contract states the intended labels |

The outer renderers (`Dialog.Action.DebugString` and, through it,
`CommandAction.Action.DebugString`) use the as-written variant strings, so
they give the program's actual output. The corrected rendering is a separate
member.
