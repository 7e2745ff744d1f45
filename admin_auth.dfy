/** The administrator check shared by the admin API routes: `checkAdminAuth` in
    app/api/admin/summarize/route.ts and `isAuthorized` in app/api/projects/route.ts test the
    same thing, a bearer token equal to the configured administrator password. */
module AdminAuth {
  import opened Common

  const BearerPrefix := "Bearer "

  const Unauthorized := "Unauthorized"

  /** The password comes from the environment and the header from the request; either may be
      absent. An unset or empty password refuses everyone; otherwise the header must start
      with `Bearer ` and the text after those seven characters must equal the password. */
  function CheckAdminAuth(password: Option<string>, header: Option<string>): (ok: bool)
    ensures ok <==> Truthy(password) && header.Some? && StartsWith(header.value, BearerPrefix)
                    && header.value[|BearerPrefix|..] == password.value
  {
    if !Truthy(password) then false
    else if !Truthy(header) || !StartsWith(header.value, BearerPrefix) then false
    else header.value[7..] == password.value
  }

  /** The comparison is exact: the one accepted header is `Bearer ` followed by the password,
      with nothing trimmed and nothing added. */
  lemma CheckAdminAuthExact(password: Option<string>, header: Option<string>)
    ensures CheckAdminAuth(password, header) <==>
              Truthy(password) && header == Some(BearerPrefix + password.value)
  {
    if Truthy(password) && header == Some(BearerPrefix + password.value) {
      assert header.value[..7] == BearerPrefix;
      assert header.value[7..] == password.value;
    }
    if Truthy(password) && header.Some? && StartsWith(header.value, BearerPrefix) {
      assert header.value[..7] == BearerPrefix;
      assert header.value == header.value[..7] + header.value[7..];
    }
  }
}

/** The outcome of one call through the hosted-database client (lib/supabase.ts): an error
    carrying its message, or the returned data, which may be null. */
module Store {
  import opened Common

  datatype DbResult<T> = DbError(message: string) | DbData(data: Option<T>)

  /** The answer of every route that needs the database when its client was not created. */
  const StoreMissing := "Supabase not configured"

  /** The parts of a projects row the code looks at: its id, its name and its optional
      status (`draft`, `live`, `offline` or `template`). */
  datatype Project = Project(id: Option<string>, name: string, status: Option<string>)
}
