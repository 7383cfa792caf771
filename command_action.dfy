/**
 * The top-level effect description: one of four kinds of request, each
 * eventually delivering a message of type `T`.
 *
 * The clipboard and window requests belong to other components and are
 * opaque here; the clipboard request's own map is passed to `Map` as a
 * function.  A future is the thunk that yields its eventual result.
 */
module CommandAction {
  import D = Dialog

  /** A clipboard request whose answer becomes a message of type `T`. */
  type ClipboardAction<T>

  /** A window request; it delivers no message. */
  type WindowAction

  datatype Action<T> =
    | Future(run: () -> T)
    | Clipboard(clipboard: ClipboardAction<T>)
    | Window(window: WindowAction)
    | Dialog(dialog: D.Action<T>)
  {
    /**
     * Transforms the delivered message with `f`, keeping the tag.  The
     * future's result is post-composed with `f`, the clipboard request is
     * handed to its own map, the window request passes through and the
     * dialog request is mapped as a dialog.
     */
    function Map<A>(f: T -> A, clipboardMap: ClipboardAction<T> -> ClipboardAction<A>): (r: Action<A>)
      ensures r.Future? <==> Future?
      ensures r.Clipboard? <==> Clipboard?
      ensures r.Window? <==> Window?
      ensures r.Dialog? <==> Dialog?
      ensures Future? ==> r.run() == f(run())
      ensures Clipboard? ==> r.clipboard == clipboardMap(clipboard)
      ensures Window? ==> r.window == window
      ensures Dialog? ==> r.dialog == dialog.Map(f)
    {
      match this
      case Future(future) => Future(() => f(future()))
      case Clipboard(action) => Clipboard(clipboardMap(action))
      case Window(action) => Window(action)
      case Dialog(action) => Dialog(action.Map(f))
    }

    /** Observational equality: same tag, same payload, same message on every resolution. */
    ghost predicate Equiv(other: Action<T>)
    {
      match this
      case Future(future) => other.Future? && other.run() == future()
      case Clipboard(action) => other.Clipboard? && other.clipboard == action
      case Window(action) => other.Window? && other.window == action
      case Dialog(action) => other.Dialog? && action.Equiv(other.dialog)
    }

    /**
     * The Debug rendering: a fixed string for a future, which is not
     * inspected; otherwise the tag wrapped around the payload's rendering.
     */
    function DebugString(
      showClipboard: ClipboardAction<T> -> string, showWindow: WindowAction -> string, format: D.DebugFormat)
      : (r: string)
      ensures r == "Action::Future" <==> Future?
      ensures Clipboard? ==>
        var head := "Action::Clipboard(" + showClipboard(clipboard);
        head <= r && |r| == |head| + 1 && r[|r| - 1] == ')'
      ensures Window? ==>
        var head := "Action::Window(" + showWindow(window);
        head <= r && |r| == |head| + 1 && r[|r| - 1] == ')'
      ensures Dialog? ==>
        var head := "Action::Dialog(" + dialog.DebugString(format);
        head <= r && |r| == |head| + 1 && r[|r| - 1] == ')'
    {
      match this
      case Future(_) => "Action::Future"
      case Clipboard(action) => "Action::Clipboard(" + showClipboard(action) + ")"
      case Window(action) => "Action::Window(" + showWindow(action) + ")"
      case Dialog(action) => "Action::Dialog(" + action.DebugString(format) + ")"
    }
  }

  /** An ordered batch of actions; only the one-action form is modelled. */
  datatype Command<T> = Command(actions: seq<Action<T>>)
  {
    static function Single(action: Action<T>): (c: Command<T>)
      ensures |c.actions| == 1 && c.actions[0] == action
    {
      Command([action])
    }
  }

  /** Mapping with the identity (and the clipboard's identity) changes nothing observable. */
  lemma MapIdentity<T>(a: Action<T>)
    ensures a.Map(t => t, c => c).Equiv(a)
  {
  }

  /** Mapping twice behaves as mapping once with the composed functions. */
  lemma MapComposition<T, A, B>(
    a: Action<T>, f: T -> A, g: A -> B,
    cf: ClipboardAction<T> -> ClipboardAction<A>, cg: ClipboardAction<A> -> ClipboardAction<B>)
    ensures a.Map(f, cf).Map(g, cg).Equiv(a.Map(t => g(f(t)), c => cg(cf(c))))
  {
  }

  /** A window request survives any map with its payload intact. */
  lemma WindowPassesThrough<T, A>(w: WindowAction, f: T -> A, cf: ClipboardAction<T> -> ClipboardAction<A>)
    ensures Action<T>.Window(w).Map(f, cf) == Action<A>.Window(w)
  {
  }

  /**
   * Mapping keeps the rendering of future, window and dialog requests, and of
   * a clipboard request whose mapped payload renders as before.
   */
  lemma MapKeepsDebug<T, A>(
    a: Action<T>, f: T -> A, cf: ClipboardAction<T> -> ClipboardAction<A>,
    showClipboard: ClipboardAction<T> -> string, showMapped: ClipboardAction<A> -> string,
    showWindow: WindowAction -> string, format: D.DebugFormat)
    requires a.Clipboard? ==> showMapped(cf(a.clipboard)) == showClipboard(a.clipboard)
    ensures a.Map(f, cf).DebugString(showMapped, showWindow, format) == a.DebugString(showClipboard, showWindow, format)
  {
  }
}
