/** What the hosted backend hands back to the client. Every remote call is
    made by the backend library, so the model receives its result as a value
    instead of performing it. */
module Remote {
  import opened Js

  /** An error object from the identity provider, the `profiles` table or
      the `avatars` bucket: its code (a PostgREST or Postgres code such as
      `PGRST116` or `23505`, or empty) and its message. */
  datatype RemoteError = RemoteError(code: string, message: string)

  /** The result of a `.select(…).single()` query: exactly one row, or an
      error (which is also what zero or several matching rows produce). */
  datatype FetchResult = Fetched(row: Record) | FetchFailed(error: RemoteError)

  /** The result of an `.insert([…]).select().single()`: the row as stored. */
  datatype InsertResult = Inserted(row: Record) | InsertFailed(error: RemoteError)

  /** The signed-in identity: `session.user`, with its id and its email
      (which the provider may omit). */
  datatype User = User(id: string, email: Value)

  /** PostgREST's code for "`.single()` matched no row". */
  const NoRowsCode: string := "PGRST116"

  /** Postgres' code for a unique-constraint violation. */
  const UniqueViolationCode: string := "23505"

  /** The `data` of a `.single()` query: the row, or `null` on any error. */
  function Data(result: FetchResult): (data: Option<Record>)
    ensures data.Some? <==> result.Fetched?
  {
    if result.Fetched? then Some(result.row) else None
  }

  /** The profile row every provisioning path in the client inserts:
      the given id, username and display name, an empty bio, no avatar,
      and both timestamps set to the moment of the call. */
  function NewProfileRow(id: string, username: string, fullName: string, now: string): (row: Record)
    ensures row.Keys == {"id", "username", "full_name", "avatar_url", "bio", "created_at", "updated_at"}
    ensures Field(row, "id") == Str(id) && Field(row, "username") == Str(username)
    ensures Field(row, "full_name") == Str(fullName)
    ensures Field(row, "avatar_url") == Null && Field(row, "bio") == Str("")
    ensures Field(row, "created_at") == Field(row, "updated_at") == Str(now)
    ensures forall k :: k in row && k != "avatar_url" ==> row[k].Str?
  {
    map[
      "id" := Str(id),
      "username" := Str(username),
      "full_name" := Str(fullName),
      "avatar_url" := Null,
      "bio" := Str(""),
      "created_at" := Str(now),
      "updated_at" := Str(now)
    ]
  }
}
