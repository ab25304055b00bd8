/** The application's own record types (src/models/user.ts). */
module Models {
  import opened Wrappers

  /** The signed-in principal as the rest of the application sees it. */
  datatype User = User(id: string, email: string, displayName: Option<string>, photoURL: Option<string>)

  /** What the login form sends. */
  datatype LoginCredentials = LoginCredentials(email: string, password: string)

  /** What the signup form sends: the login fields plus an optional display name. */
  datatype RegisterCredentials = RegisterCredentials(email: string, password: string, displayName: Option<string>)
}
