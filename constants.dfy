/** The fixed strings of the wire contract with the authentication backend. */
module Constants {
  const DefaultApiHost := "https://auth.firebase.com"

  const CreateUserPath := "/auth/firebase/create"
  const RemoveUserPath := "/auth/firebase/remove"
  const ChangePasswordPath := "/auth/firebase/update"
  const ResetPasswordPath := "/auth/firebase/reset_password"
  const PasswordPath := "/auth/firebase"
  const FacebookPath := "/auth/facebook/token"
  const GooglePath := "/auth/google/token"
  const TwitterReversePath := "/auth/twitter/reverse"
  const TwitterTokenPath := "/auth/twitter/token"
  const AnonymousPath := "/auth/anonymous"
}
