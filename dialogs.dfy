/** The confirmation dialog shared by the pages (`ModalState`). Its two
    callbacks are represented by values of a page-specific effect type `E`,
    which the page applies when the dialog is confirmed or dismissed. */
module Dialogs {

  datatype Modal<E> = Modal(
    isOpen: bool,
    title: string,
    message: string,
    onConfirm: E,
    onCancel: E,
    confirmText: string,
    isDanger: bool,
    showCancel: bool)

  /** `setModalState((p) => ({ ...p, isOpen: false }))`. */
  function Closed<E>(m: Modal<E>): (r: Modal<E>)
    ensures !r.isOpen
    ensures r.(isOpen := m.isOpen) == m
  {
    m.(isOpen := false)
  }
}
