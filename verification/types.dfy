/** The record shapes exchanged between the client and the server (types/auth.ts and the server's DTOs). */
module Types {

  /** The user snapshot the client keeps: the six fields of `User`. */
  datatype User = User(
    id: nat,
    email: string,
    firstName: string,
    lastName: string,
    emailVerified: bool,
    profileCompleted: bool)

  /** The body of a successful login, verification or onboarding reply. `tokenType` is the JSON field `type`. */
  datatype AuthResponse = AuthResponse(
    token: string,
    tokenType: string,
    id: nat,
    email: string,
    firstName: string,
    lastName: string,
    emailVerified: bool,
    profileCompleted: bool)

  datatype LoginCredentials = LoginCredentials(email: string, password: string)

  datatype RegisterData = RegisterData(email: string, password: string, firstName: string, lastName: string)

  /** The body of a verification request: `{ email, code }`. */
  datatype VerificationData = VerificationData(email: string, code: string)

  /** The body of a resend request: `{ email }`. */
  datatype EmailBody = EmailBody(email: string)

  /** The body of a successful registration reply: `{ message, email }`. */
  datatype RegisterReply = RegisterReply(message: string, email: string)

  /** The body of a successful resend reply: `{ message }`. */
  datatype MessageReply = MessageReply(message: string)

  /** The value of `AuthResponse.type` that the server always sends. */
  const BEARER: string := "Bearer"

  /** The user snapshot `setAuthData` builds from a reply: exactly the six user fields, nothing else. */
  function UserOf(r: AuthResponse): User {
    User(r.id, r.email, r.firstName, r.lastName, r.emailVerified, r.profileCompleted)
  }
}
