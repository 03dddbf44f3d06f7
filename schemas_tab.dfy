/** The uploaded-schemas list of `src/components/SchemasTab.tsx`: a case-insensitive
    search over a schema's name and SQL, then the loading, empty or list rendering. */
module SchemasTab {
  import opened Strings
  import opened Seqs
  import opened Records

  const NoSchemasTitle := "No schemas found"
  const NoSchemasHint := "You haven't uploaded any schemas yet"

  /** The search test: the lower-cased term occurs in the lower-cased name or SQL.
      The empty term matches every schema; a term longer than both texts matches none. */
  predicate SchemaMatches(term: string, s: UploadedSchema)
    ensures term == "" ==> SchemaMatches(term, s)
    ensures SchemaMatches(term, s) ==> |term| <= |s.name| || |term| <= |s.schemaSql|
  {
    ContainsIgnoringCase(s.name, term) || ContainsIgnoringCase(s.schemaSql, term)
  }

  function SchemaMatcher(term: string): UploadedSchema -> bool {
    s => SchemaMatches(term, s)
  }

  /** `filteredSchemas`: an empty term keeps the list; any other term keeps exactly the
      matching schemas, in their original order. */
  function FilterSchemas(schemas: seq<UploadedSchema>, term: string): (r: seq<UploadedSchema>)
    ensures term == "" ==> r == schemas
    ensures IsSubsequence(r, schemas)
    ensures forall s :: s in r <==> s in schemas && SchemaMatches(term, s)
  {
    if term == "" then
      EmptyTermMatchesAll(schemas);
      FilterIsSubsequence(schemas, SchemaMatcher(""));
      schemas
    else
      FilterIsSubsequence(schemas, SchemaMatcher(term));
      Filter(schemas, SchemaMatcher(term))
  }

  /** The empty term occurs in every text, so the guard on an empty term only skips a
      filter that would keep everything anyway. */
  lemma EmptyTermMatchesAll(schemas: seq<UploadedSchema>)
    ensures forall s :: s in schemas ==> SchemaMatches("", s)
    ensures Filter(schemas, SchemaMatcher("")) == schemas
  {
    forall s | s in schemas ensures SchemaMatches("", s) {
      ContainsEmpty(ToLower(s.name));
    }
    FilterKeepsAll(schemas, SchemaMatcher(""));
  }

  /** Searching the result again with the same term changes nothing. */
  lemma FilterSchemasIdempotent(schemas: seq<UploadedSchema>, term: string)
    ensures FilterSchemas(FilterSchemas(schemas, term), term) == FilterSchemas(schemas, term)
  {
    if term != "" {
      FilterIdempotent(schemas, SchemaMatcher(term));
    }
  }

  /** The letter case of the term does not matter. */
  lemma FilterSchemasIgnoresTermCase(schemas: seq<UploadedSchema>, term: string)
    ensures FilterSchemas(schemas, ToUpper(term)) == FilterSchemas(schemas, term)
  {
    LowerOfUpper(term);
    if term != "" {
      FilterCongruent(schemas, SchemaMatcher(ToUpper(term)), SchemaMatcher(term));
    }
  }

  /** The rendering: the spinner first, then the empty state, then one card per schema. */
  function SchemasView(schemas: seq<UploadedSchema>, loading: bool, term: string): (v: ListView<UploadedSchema>)
    ensures loading <==> v.Spinner?
    ensures v.Cards? ==> v.items != [] && v.items == FilterSchemas(schemas, term)
    ensures v.EmptyState? ==> v.title == NoSchemasTitle
  {
    var filtered := FilterSchemas(schemas, term);
    if loading then Spinner
    else if |filtered| == 0 then EmptyState(NoSchemasTitle, if term != "" then RetrySearchHint else NoSchemasHint)
    else Cards(filtered)
  }

  /** Once loaded, the empty state appears exactly when no schema matches; it asks for
      a different term when one was given and reports no uploads otherwise. */
  lemma EmptyStateMeaning(schemas: seq<UploadedSchema>, term: string)
    ensures SchemasView(schemas, false, term).EmptyState?
        <==> forall s :: s in schemas ==> !SchemaMatches(term, s)
    ensures SchemasView(schemas, false, term).EmptyState? ==>
              SchemasView(schemas, false, term).hint == (if term == "" then NoSchemasHint else RetrySearchHint)
    ensures term == "" ==> (SchemasView(schemas, false, term).EmptyState? <==> schemas == [])
  {
    var filtered := FilterSchemas(schemas, term);
    if filtered != [] {
      assert filtered[0] in filtered;
    }
    if term == "" && schemas != [] {
      EmptyTermMatchesAll(schemas);
      assert schemas[0] in schemas;
    }
  }
}
