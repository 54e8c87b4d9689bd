/** The records the session client exchanges with the marketplace API. */
module Types {
  import opened Wrappers

  /** The role of an account: `'vendeur' | 'client'`. */
  datatype Role = Vendeur | Client

  /**
   * An account as the API returns it. `createdAt` is kept as the text of the
   * timestamp; optional contact fields are `None` when absent.
   */
  datatype User = User(
    id: string,
    email: string,
    name: string,
    role: Role,
    createdAt: string,
    phone: Option<string>,
    whatsappNumber: Option<string>)

  /** The body of a successful login or register reply. */
  datatype AuthResponse = AuthResponse(user: User, token: string)

  /** A partial user (every field optional), the body of a profile update request. */
  datatype UserPatch = UserPatch(
    id: Option<string>,
    email: Option<string>,
    name: Option<string>,
    role: Option<Role>,
    createdAt: Option<string>,
    phone: Option<string>,
    whatsappNumber: Option<string>)
}
