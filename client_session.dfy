/** What the client pages share outside the player: the `token` entry of local storage,
    the application's `isAuth` state and the current location, plus the notifications the
    pages pop up with `message`. */
module ClientSession {
  import opened JsValues
  import App

  /** `message.success`, `message.info`, `message.warning` and `message.error`. */
  datatype Toast = Success(text: string) | Info(text: string) | Warning(text: string) | Error(text: string)

  class Browser {
    /** `localStorage.getItem("token")`. */
    var token: Option<string>
    /** The application's `isAuth` state. */
    var isAuth: bool
    /** The path after the last navigation. */
    var location: string

    /** The application starts with what storage holds, at the given path. */
    constructor (stored: Option<string>, path: string)
      ensures token == stored && isAuth == App.InitialIsAuth(stored) && location == path
    {
      token := stored;
      isAuth := App.InitialIsAuth(stored);
      location := path;
    }
  }
}
