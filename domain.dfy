/** The rows of the `users` relation and the identity a token carries. */
module Domain {

  /** A row of `users`; `password` holds the stored bcrypt hash. */
  datatype User = User(id: int, username: string, password: string, role: string, name: string, email: string)

  /** The token claims `{userId, username, role}`. */
  datatype Claims = Claims(userId: int, username: string, role: string)

  /** A row of `SELECT id, username, role, name, email FROM users`: there is no password column. */
  datatype PublicUser = PublicUser(id: int, username: string, role: string, name: string, email: string)
}
