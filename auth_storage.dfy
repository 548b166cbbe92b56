/** The browser storage the two password pages share: the forgot-password
    page stores the address under this key, and the reset-password page reads
    it back and removes it once the reset succeeds. */
module AuthStorage {
  const ResetEmailKey := "reset_password_email"
}
