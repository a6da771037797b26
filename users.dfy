/** The fixed in-memory credential table `users_db` and the password check of `Login`. */
module Users {

  /** The JSON body `Login` decodes; a field missing from the JSON decodes to "". */
  datatype Credentials = Credentials(username: string, password: string)

  /** `users_db`: user name to clear-text password. */
  const UsersDb: map<string, string> := map["Hugo" := "Hugo123", "Paco" := "Paco123", "Luis" := "Luis123"]

  /** The password test of `Login`: the user must be in `users_db` and the
      password must equal the one stored for it. Unknown user and wrong password
      both give false; empty fields never pass, since the table has none. */
  function Verify(creds: Credentials): (ok: bool)
    ensures ok <==> (creds.username, creds.password) in UsersDb.Items
    ensures ok ==> creds.username != "" && creds.password != ""
  {
    creds.username in UsersDb && UsersDb[creds.username] == creds.password
  }
}
