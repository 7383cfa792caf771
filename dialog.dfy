/**
 * Dialog requests: message boxes and file/folder pickers, each carrying the
 * handler that turns the user's answer into an application message.
 *
 * A handler is a total Dafny function (`bool -> M`, `Option<Path> -> M`,
 * `seq<Path> -> M`).  Dafny does not identify two functions that agree on
 * every argument, so the functor laws of `Map` are stated with `Equiv`:
 * same tags, same flags and data, handlers equal on every argument.
 */
module Dialog {
  import opened Wrappers

  /** A file-system path; the model only passes paths through. */
  type Path = string

  // ---------------------------------------------------------------------------
  // Message dialogs
  // ---------------------------------------------------------------------------

  /** Severity of a message dialog. */
  datatype MessageLevel = Info | Warning | Error

  /** Presentation options shared by all message dialogs. */
  datatype MessageDialogOptions = MessageDialogOptions(level: MessageLevel, title: Option<string>)
  {
    /** Options with severity Info and no title. */
    static function Info(): (o: MessageDialogOptions)
      ensures o.level == MessageLevel.Info && o.title == None
    {
      MessageDialogOptions(MessageLevel.Info, None)
    }

    /** Options with severity Warning and no title. */
    static function Warning(): (o: MessageDialogOptions)
      ensures o.level == MessageLevel.Warning && o.title == None
    {
      MessageDialogOptions(MessageLevel.Warning, None)
    }

    /** Options with severity Error and no title. */
    static function Error(): (o: MessageDialogOptions)
      ensures o.level == MessageLevel.Error && o.title == None
    {
      MessageDialogOptions(MessageLevel.Error, None)
    }

    /** Sets the title and keeps the severity. */
    function WithTitle(newTitle: string): (o: MessageDialogOptions)
      ensures o.title == Some(newTitle)
      ensures o.level == level
    {
      this.(title := Some(newTitle))
    }

    /** Sets the severity and keeps the title. */
    function WithLevel(newLevel: MessageLevel): (o: MessageDialogOptions)
      ensures o.level == newLevel
      ensures o.title == title
    {
      this.(level := newLevel)
    }
  }

  /**
   * The interaction shape of a message dialog.  A confirmation hands the
   * user's choice (`true` for Yes/Okay, `false` for No/Cancel or a dismissed
   * window) to `onClose`; an informational dialog delivers its fixed message.
   */
  datatype MessageDialogVariant<M> =
    | Confirmation(onClose: bool -> M, isYesNo: bool)
    | Informational(message: M)
  {
    /** Composes `f` after the handler; the informational message is mapped at once. */
    function Map<N>(f: M -> N): (r: MessageDialogVariant<N>)
      ensures r.Confirmation? <==> Confirmation?
      ensures Confirmation? ==> r.isYesNo == isYesNo
      ensures Confirmation? ==> forall choice :: r.onClose(choice) == f(onClose(choice))
      ensures Informational? ==> r.message == f(message)
    {
      match this
      case Confirmation(handler, yesNo) => Confirmation(choice => f(handler(choice)), yesNo)
      case Informational(m) => Informational(f(m))
    }

    /** Observational equality: no answer of the user tells the two apart. */
    ghost predicate Equiv(other: MessageDialogVariant<M>)
    {
      match this
      case Confirmation(handler, yesNo) =>
        other.Confirmation? && other.isYesNo == yesNo
        && forall choice :: other.onClose(choice) == handler(choice)
      case Informational(m) =>
        other.Informational? && other.message == m
    }

    /** The fixed Debug rendering: the tag and the button style, never the handler. */
    function DebugString(): (r: string)
      ensures r == "Confirmation(Yes/No)" <==> Confirmation? && isYesNo
      ensures r == "Confirmation(Okay/Cancel)" <==> Confirmation? && !isYesNo
      ensures r == "Informational" <==> Informational?
    {
      match this
      case Confirmation(_, true) => "Confirmation(Yes/No)"
      case Confirmation(_, false) => "Confirmation(Okay/Cancel)"
      case Informational(_) => "Informational"
    }
  }

  // ---------------------------------------------------------------------------
  // File dialogs
  // ---------------------------------------------------------------------------

  /**
   * A named group of file extensions.  `Owned` is built at run time and
   * `Static` from compile-time constants; the accessors do not tell them apart.
   */
  datatype Filter =
    | Owned(ownedName: string, ownedExtensions: seq<string>)
    | Static(staticName: string, staticExtensions: seq<string>)
  {
    /** A run-time filter. */
    static function New(name: string, extensions: seq<string>): (f: Filter)
      ensures f.Owned?
      ensures f.Name() == name && f.Extensions() == extensions
    {
      Owned(name, extensions)
    }

    /** A compile-time constant filter. */
    static function NewConst(name: string, extensions: seq<string>): (f: Filter)
      ensures f.Static?
      ensures f.Name() == name && f.Extensions() == extensions
    {
      Static(name, extensions)
    }

    /** The name, whichever way the filter stores it. */
    function Name(): (n: string)
      ensures n == if Owned? then ownedName else staticName
    {
      match this
      case Static(name, _) => name
      case Owned(name, _) => name
    }

    /** The extensions, copied element by element from a constant filter, in their stored order. */
    function Extensions(): (e: seq<string>)
      ensures e == if Owned? then ownedExtensions else staticExtensions
    {
      match this
      case Static(_, extensions) =>
        seq(|extensions|, i requires 0 <= i < |extensions| => extensions[i])
      case Owned(_, extensions) => extensions
    }

    /** Raster images. */
    static const ImageFiles: Filter := NewConst("Images", ["webp", "png", "jpg", "jpeg", "gif", "tiff"])

    /** Audio files. */
    static const AudioFiles: Filter := NewConst("Audio", ["mp3", "wav", "ogg", "flac", "aac"])

    /** Text files. */
    static const TextFiles: Filter := NewConst("Text", ["txt"])
  }

  /** Presentation options for a file dialog; filters are shown in order. */
  datatype FileDialogOptions = FileDialogOptions(
    filters: seq<Filter>,
    initialDirectory: Option<Path>,
    initialFilename: Option<string>,
    title: Option<string>)
  {
    /** No filters and no optional setting. */
    static function New(): (o: FileDialogOptions)
      ensures o.filters == []
      ensures o.initialDirectory == None && o.initialFilename == None && o.title == None
    {
      NewWithFilters([])
    }

    /** The given filters and no optional setting. */
    static function NewWithFilters(filters: seq<Filter>): (o: FileDialogOptions)
      ensures o.filters == filters
      ensures o.initialDirectory == None && o.initialFilename == None && o.title == None
    {
      FileDialogOptions(filters, None, None, None)
    }

    /** Appends `filter` after the existing filters. */
    function AddFilter(filter: Filter): (o: FileDialogOptions)
      ensures |o.filters| == |filters| + 1
      ensures o.filters[..|filters|] == filters && o.filters[|filters|] == filter
      ensures o.initialDirectory == initialDirectory
      ensures o.initialFilename == initialFilename && o.title == title
    {
      this.(filters := filters + [filter])
    }

    function WithInitialDirectory(path: Path): (o: FileDialogOptions)
      ensures o.initialDirectory == Some(path)
      ensures o.filters == filters && o.initialFilename == initialFilename && o.title == title
    {
      this.(initialDirectory := Some(path))
    }

    function WithInitialFilename(filename: string): (o: FileDialogOptions)
      ensures o.initialFilename == Some(filename)
      ensures o.filters == filters && o.initialDirectory == initialDirectory && o.title == title
    {
      this.(initialFilename := Some(filename))
    }

    function WithTitle(newTitle: string): (o: FileDialogOptions)
      ensures o.title == Some(newTitle)
      ensures o.filters == filters && o.initialDirectory == initialDirectory
      ensures o.initialFilename == initialFilename
    {
      this.(title := Some(newTitle))
    }
  }

  /**
   * A chain of `AddFilter` calls, one per element of `filters`, left to right.
   * The earlier filters are kept and the new ones follow in call order.
   */
  function AddFilters(o: FileDialogOptions, filters: seq<Filter>): (r: FileDialogOptions)
    ensures r == o.(filters := o.filters + filters)
    decreases |filters|
  {
    if filters == [] then o
    else
      var next := o.AddFilter(filters[0]);
      assert next.filters + filters[1..] == o.filters + filters;
      AddFilters(next, filters[1..])
  }

  /**
   * The interaction shape of a file dialog.  Cancelling hands `None` to a
   * single-selection handler and the empty sequence to `onSelectFiles`.
   */
  datatype FileDialogVariant<M> =
    | SingleFileDialog(isSaveDialog: bool, onSelect: Option<Path> -> M)
    | MultiFileDialog(onSelectFiles: seq<Path> -> M)
    | FolderSelectDialog(onSelectFolder: Option<Path> -> M)
  {
    /** Composes `f` after the handler and keeps the tag and the save flag. */
    function Map<N>(f: M -> N): (r: FileDialogVariant<N>)
      ensures r.SingleFileDialog? <==> SingleFileDialog?
      ensures r.MultiFileDialog? <==> MultiFileDialog?
      ensures r.FolderSelectDialog? <==> FolderSelectDialog?
      ensures SingleFileDialog? ==> r.isSaveDialog == isSaveDialog
      ensures SingleFileDialog? ==> forall file :: r.onSelect(file) == f(onSelect(file))
      ensures MultiFileDialog? ==> forall files :: r.onSelectFiles(files) == f(onSelectFiles(files))
      ensures FolderSelectDialog? ==> forall folder :: r.onSelectFolder(folder) == f(onSelectFolder(folder))
    {
      match this
      case SingleFileDialog(save, handler) => SingleFileDialog(save, file => f(handler(file)))
      case MultiFileDialog(handler) => MultiFileDialog(files => f(handler(files)))
      case FolderSelectDialog(handler) => FolderSelectDialog(folder => f(handler(folder)))
    }

    /** Observational equality: no selection of the user tells the two apart. */
    ghost predicate Equiv(other: FileDialogVariant<M>)
    {
      match this
      case SingleFileDialog(save, handler) =>
        other.SingleFileDialog? && other.isSaveDialog == save
        && forall file :: other.onSelect(file) == handler(file)
      case MultiFileDialog(handler) =>
        other.MultiFileDialog? && forall files :: other.onSelectFiles(files) == handler(files)
      case FolderSelectDialog(handler) =>
        other.FolderSelectDialog? && forall folder :: other.onSelectFolder(folder) == handler(folder)
    }

    /** The Debug rendering as iced's `dialog.rs` writes it: the save flag's labels are swapped. */
    function DebugStringAsWritten(): (r: string)
      ensures r == "SingleFileDialog(open)" <==> SingleFileDialog? && isSaveDialog
      ensures r == "SingleFileDialog(save)" <==> SingleFileDialog? && !isSaveDialog
      ensures r == "MultiFileDialog" <==> MultiFileDialog?
      ensures r == "FolderSelectDialog" <==> FolderSelectDialog?
    {
      match this
      case SingleFileDialog(true, _) => "SingleFileDialog(open)"
      case SingleFileDialog(false, _) => "SingleFileDialog(save)"
      case MultiFileDialog(_) => "MultiFileDialog"
      case FolderSelectDialog(_) => "FolderSelectDialog"
    }

    /** The Debug rendering with the mode label matching `isSaveDialog`. */
    function DebugString(): (r: string)
      ensures r == "SingleFileDialog(save)" <==> SingleFileDialog? && isSaveDialog
      ensures r == "SingleFileDialog(open)" <==> SingleFileDialog? && !isSaveDialog
      ensures r == "MultiFileDialog" <==> MultiFileDialog?
      ensures r == "FolderSelectDialog" <==> FolderSelectDialog?
    {
      match this
      case SingleFileDialog(true, _) => "SingleFileDialog(save)"
      case SingleFileDialog(false, _) => "SingleFileDialog(open)"
      case MultiFileDialog(_) => "MultiFileDialog"
      case FolderSelectDialog(_) => "FolderSelectDialog"
    }
  }

  // ---------------------------------------------------------------------------
  // Dialog actions
  // ---------------------------------------------------------------------------

  /**
   * Renderings of the parts whose Debug output comes from elsewhere: the
   * derived Debug of the two options structs and the standard `str` Debug
   * (quoted and escaped) of the body text.
   */
  datatype DebugFormat = DebugFormat(
    messageOptions: MessageDialogOptions -> string,
    fileOptions: FileDialogOptions -> string,
    text: string -> string)

  /** One dialog request. */
  datatype Action<M> =
    | MessageDialog(messageOptions: MessageDialogOptions, messageVariant: MessageDialogVariant<M>, text: string)
    | FileDialog(fileOptions: FileDialogOptions, fileVariant: FileDialogVariant<M>)
  {
    /** Maps the variant only; the options and the body text are returned as they are. */
    function Map<N>(f: M -> N): (r: Action<N>)
      ensures r.MessageDialog? <==> MessageDialog?
      ensures MessageDialog? ==> r.messageOptions == messageOptions && r.text == text
      ensures MessageDialog? ==> r.messageVariant == messageVariant.Map(f)
      ensures FileDialog? ==> r.fileOptions == fileOptions && r.fileVariant == fileVariant.Map(f)
    {
      match this
      case MessageDialog(options, variant, body) => MessageDialog(options, variant.Map(f), body)
      case FileDialog(options, variant) => FileDialog(options, variant.Map(f))
    }

    ghost predicate Equiv(other: Action<M>)
    {
      match this
      case MessageDialog(options, variant, body) =>
        other.MessageDialog? && other.messageOptions == options && other.text == body
        && variant.Equiv(other.messageVariant)
      case FileDialog(options, variant) =>
        other.FileDialog? && other.fileOptions == options && variant.Equiv(other.fileVariant)
    }

    /**
     * The Debug rendering: the kind, then the options, then the variant's
     * rendering (the file variant's as written) and, for a message dialog,
     * the body text after a space.
     */
    function DebugString(format: DebugFormat): (r: string)
      ensures MessageDialog? ==>
        var head := "MessageDialog(" + format.messageOptions(messageOptions) + ", " + messageVariant.DebugString();
        var tail := " " + format.text(text) + ")";
        |r| == |head| + |tail| && r[..|head|] == head && r[|head|..] == tail
      ensures FileDialog? ==>
        var head := "FileDialog(" + format.fileOptions(fileOptions) + ", ";
        var tail := fileVariant.DebugStringAsWritten() + ")";
        |r| == |head| + |tail| && r[..|head|] == head && r[|head|..] == tail
    {
      match this
      case MessageDialog(options, variant, body) =>
        "MessageDialog(" + format.messageOptions(options) + ", " + variant.DebugString()
        + " " + format.text(body) + ")"
      case FileDialog(options, variant) =>
        "FileDialog(" + format.fileOptions(options) + ", " + variant.DebugStringAsWritten() + ")"
    }
  }

  // ---------------------------------------------------------------------------
  // Properties of the options builders and filters
  // ---------------------------------------------------------------------------

  /** The three presets differ only in severity: each is `Info()` with that level. */
  lemma PresetsAreInfoWithLevel()
    ensures MessageDialogOptions.Info().WithLevel(MessageLevel.Warning) == MessageDialogOptions.Warning()
    ensures MessageDialogOptions.Info().WithLevel(MessageLevel.Error) == MessageDialogOptions.Error()
  {
  }

  /** Each setter touches one field, so setting title and level commutes. */
  lemma MessageOptionSettersCommute(o: MessageDialogOptions, title: string, level: MessageLevel)
    ensures o.WithTitle(title).WithLevel(level) == o.WithLevel(level).WithTitle(title)
  {
  }

  /** Filters added to fresh options are displayed exactly in insertion order. */
  lemma NewWithAddedFilters(filters: seq<Filter>)
    ensures AddFilters(FileDialogOptions.New(), filters) == FileDialogOptions.NewWithFilters(filters)
  {
  }

  /** The same name and extensions give the same accessors, whichever constructor built the filter. */
  lemma FilterFormsAgree(name: string, extensions: seq<string>)
    ensures Filter.New(name, extensions).Name() == Filter.NewConst(name, extensions).Name() == name
    ensures Filter.New(name, extensions).Extensions() == Filter.NewConst(name, extensions).Extensions()
    ensures Filter.NewConst(name, extensions).Extensions() == extensions
  {
  }

  /** The built-in constant filters and the extensions they list, in order. */
  lemma BuiltinFilters()
    ensures Filter.ImageFiles.Static? && Filter.ImageFiles.Name() == "Images"
    ensures Filter.ImageFiles.Extensions() == ["webp", "png", "jpg", "jpeg", "gif", "tiff"]
    ensures Filter.AudioFiles.Static? && Filter.AudioFiles.Name() == "Audio"
    ensures Filter.AudioFiles.Extensions() == ["mp3", "wav", "ogg", "flac", "aac"]
    ensures Filter.TextFiles.Static? && Filter.TextFiles.Name() == "Text" && Filter.TextFiles.Extensions() == ["txt"]
  {
  }

  // ---------------------------------------------------------------------------
  // Functor laws of the three maps
  // ---------------------------------------------------------------------------

  lemma MessageVariantMapIdentity<M>(v: MessageDialogVariant<M>)
    ensures v.Map(m => m).Equiv(v)
  {
  }

  lemma MessageVariantMapComposition<M, N, P>(v: MessageDialogVariant<M>, f: M -> N, g: N -> P)
    ensures v.Map(f).Map(g).Equiv(v.Map(m => g(f(m))))
  {
  }

  lemma FileVariantMapIdentity<M>(v: FileDialogVariant<M>)
    ensures v.Map(m => m).Equiv(v)
  {
  }

  lemma FileVariantMapComposition<M, N, P>(v: FileDialogVariant<M>, f: M -> N, g: N -> P)
    ensures v.Map(f).Map(g).Equiv(v.Map(m => g(f(m))))
  {
  }

  /** Mapping with the identity changes nothing observable: options, text and handlers. */
  lemma ActionMapIdentity<M>(a: Action<M>)
    ensures a.Map(m => m).Equiv(a)
  {
  }

  /** Mapping with `f` and then `g` behaves as one map with `g` after `f`. */
  lemma ActionMapComposition<M, N, P>(a: Action<M>, f: M -> N, g: N -> P)
    ensures a.Map(f).Map(g).Equiv(a.Map(m => g(f(m))))
  {
  }

  /** Observational equality of dialog actions is reflexive, symmetric and transitive. */
  lemma ActionEquivIsEquivalence<M>(a: Action<M>, b: Action<M>, c: Action<M>)
    ensures a.Equiv(a)
    ensures a.Equiv(b) ==> b.Equiv(a)
    ensures a.Equiv(b) && b.Equiv(c) ==> a.Equiv(c)
  {
  }

  /** `Map` respects observational equality; with the lemma above, the laws compose. */
  lemma ActionMapRespectsEquiv<M, N>(a: Action<M>, b: Action<M>, f: M -> N)
    requires a.Equiv(b)
    ensures a.Map(f).Equiv(b.Map(f))
  {
  }

  // ---------------------------------------------------------------------------
  // Debug renderings
  // ---------------------------------------------------------------------------

  /** As written, a save dialog renders as "open" and an open dialog as "save". */
  lemma SaveDialogRendersAsOpen<M>(handler: Option<Path> -> M)
    ensures SingleFileDialog(true, handler).DebugStringAsWritten() == "SingleFileDialog(open)"
    ensures SingleFileDialog(false, handler).DebugStringAsWritten() == "SingleFileDialog(save)"
  {
  }

  /** The two renderings disagree on exactly the single-file dialogs, and agree elsewhere. */
  lemma RenderingsDisagreeOnSingleFile<M>(v: FileDialogVariant<M>)
    ensures v.DebugStringAsWritten() != v.DebugString() <==> v.SingleFileDialog?
  {
  }

  /** A dialog action's rendering reads no handler: observationally equal actions render alike. */
  lemma ActionEquivKeepsDebug<M>(a: Action<M>, b: Action<M>, format: DebugFormat)
    requires a.Equiv(b)
    ensures a.DebugString(format) == b.DebugString(format)
  {
  }

  /** Renderings never look at a handler, so mapping leaves them unchanged. */
  lemma ActionMapKeepsDebug<M, N>(a: Action<M>, f: M -> N, format: DebugFormat)
    ensures a.Map(f).DebugString(format) == a.DebugString(format)
  {
  }
}
