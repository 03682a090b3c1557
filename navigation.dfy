/** Navigation requested by the UI code, recorded as an emitted effect
    instead of being performed. */
module Navigation {

  datatype Effect =
    /** React Router's `navigate(path, { replace })` or a `<Navigate>` element. */
    | Navigate(path: string, replace: bool)
    /** `window.location.replace(path)`: a full page load that replaces the history entry. */
    | LocationReplace(path: string)
    /** The browser's default action for a submitted form without an `action`:
        the current page is requested again, dropping the app's state. */
    | DocumentReload

  const LoginPath := "/login"
  const BoardsPath := "/boards"
}
