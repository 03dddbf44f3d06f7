/** The saved records of `src/lib/supabase.ts`, as the lists and the dashboard receive
    them, and the three ways a list panel can render. */
module Records {

  /** A saved natural-language query and the SQL generated for it. */
  datatype Query = Query(
    id: int,
    userId: string,
    prompt: string,
    sqlResult: string,
    schema: string,
    createdAt: string)

  /** An uploaded schema. */
  datatype UploadedSchema = UploadedSchema(
    id: int,
    userId: string,
    name: string,
    schemaSql: string,
    createdAt: string)

  /** A list panel: the loading spinner, the empty state with its heading and hint, or
      one card per item, in order. */
  datatype ListView<T> = Spinner | EmptyState(title: string, hint: string) | Cards(items: seq<T>)

  const RetrySearchHint := "Try a different search term"
}
