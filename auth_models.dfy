/** The records exchanged with the authentication back end. */
module AuthModels {

  /** Credentials posted to `/auth/login`. */
  datatype LoginRequest = LoginRequest(email: string, password: string)

  /** The signed-in user. */
  datatype AuthUser = AuthUser(name: string, email: string)

  /** The back end's answer to a successful login: the user and a JWT. */
  datatype LoginResponse = LoginResponse(user: AuthUser, token: string)
}
