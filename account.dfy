/**
 * The signed-in account as the checkout, plans and success pages read it from their auth
 * context: the account's uid and email. The auth context itself is not part of this model.
 */
module AuthAccount {
  import opened Wrappers

  /** `user` from `useAuth()`, when there is one. */
  datatype Account = Account(uid: string, email: Option<string>)
}
