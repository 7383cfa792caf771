/**
 * The dialog functions that produce a command.  They sit in their own module
 * because a command holds top-level actions, which in turn hold dialog
 * actions; the two Rust modules refer to each other.
 */
module DialogCommand {
  import opened Wrappers
  import D = Dialog
  import CA = CommandAction

  /** A dialog action becomes the command holding exactly that action. */
  function FromAction<M>(action: D.Action<M>): (c: CA.Command<M>)
    ensures |c.actions| == 1
    ensures c.actions[0].Dialog? && c.actions[0].dialog == action
  {
    CA.Command.Single(CA.Dialog(action))
  }

  /** The dialog held by a one-dialog command built here. */
  ghost predicate HoldsMessageDialog<M>(
    c: CA.Command<M>, options: D.MessageDialogOptions, message: string)
  {
    |c.actions| == 1 && c.actions[0].Dialog? && c.actions[0].dialog.MessageDialog?
    && c.actions[0].dialog.messageOptions == options && c.actions[0].dialog.text == message
  }

  /**
   * A confirmation dialog with the given options and body text; `onClose`
   * receives `true` for Yes/Okay and `false` otherwise.
   */
  function ShowConfirmationDialog<M>(
    options: D.MessageDialogOptions, onClose: bool -> M, isYesNo: bool, message: string): (c: CA.Command<M>)
    ensures HoldsMessageDialog(c, options, message)
    ensures c.actions[0].dialog.messageVariant.Confirmation?
    ensures c.actions[0].dialog.messageVariant.isYesNo == isYesNo
    ensures c.actions[0].dialog.messageVariant.onClose(true) == onClose(true)
    ensures c.actions[0].dialog.messageVariant.onClose(false) == onClose(false)
  {
    FromAction(D.MessageDialog(options, D.Confirmation(onClose, isYesNo), message))
  }

  /** An informational dialog with the given options and body text, delivering `onClose`. */
  function ShowInformationalDialog<M>(
    options: D.MessageDialogOptions, onClose: M, message: string): (c: CA.Command<M>)
    ensures HoldsMessageDialog(c, options, message)
    ensures c.actions[0].dialog.messageVariant == D.Informational(onClose)
  {
    FromAction(D.MessageDialog(options, D.Informational(onClose), message))
  }

  /** An untitled Error-level informational dialog. */
  function Error<M>(errorMsg: string, onClose: M): (c: CA.Command<M>)
    ensures HoldsMessageDialog(c, D.MessageDialogOptions(D.MessageLevel.Error, None), errorMsg)
    ensures c.actions[0].dialog.messageVariant == D.Informational(onClose)
  {
    ShowInformationalDialog(D.MessageDialogOptions.Error(), onClose, errorMsg)
  }

  /** An untitled Error-level confirmation with Okay/Cancel buttons. */
  function Confirmation<M>(errorMsg: string, onClose: bool -> M): (c: CA.Command<M>)
    ensures HoldsMessageDialog(c, D.MessageDialogOptions(D.MessageLevel.Error, None), errorMsg)
    ensures c.actions[0].dialog.messageVariant.Confirmation?
    ensures !c.actions[0].dialog.messageVariant.isYesNo
    ensures c.actions[0].dialog.messageVariant.onClose(true) == onClose(true)
    ensures c.actions[0].dialog.messageVariant.onClose(false) == onClose(false)
  {
    ShowConfirmationDialog(D.MessageDialogOptions.Error(), onClose, false, errorMsg)
  }

  /**
   * Lifting a dialog into a command and then mapping the command's action
   * is the same as mapping the dialog first: options and text survive.
   */
  lemma MapAfterLifting<M, N>(
    action: D.Action<M>, f: M -> N, cf: CA.ClipboardAction<M> -> CA.ClipboardAction<N>)
    ensures FromAction(action).actions[0].Map(f, cf) == FromAction(action.Map(f)).actions[0]
  {
  }
}
