/** The saved-work page of `src/pages/Dashboard.tsx`: its own copies of the two search
    filters, the two tab panels it renders (the spinner before anything else), and the
    300-character preview of a schema's SQL. */
module Dashboard {
  import opened Strings
  import opened Seqs
  import opened Records
  import QueriesTab
  import SchemasTab

  /** `filteredQueries` as the page writes it; it is the list's filter. */
  function DashboardQueries(queries: seq<Query>, term: string): (r: seq<Query>)
    ensures r == QueriesTab.FilterQueries(queries, term)
  {
    if term == "" then queries else Filter(queries, QueriesTab.QueryMatcher(term))
  }

  /** `filteredSchemas` as the page writes it; it is the list's filter. */
  function DashboardSchemas(schemas: seq<UploadedSchema>, term: string): (r: seq<UploadedSchema>)
    ensures r == SchemasTab.FilterSchemas(schemas, term)
  {
    if term == "" then schemas else Filter(schemas, SchemasTab.SchemaMatcher(term))
  }

  /** The query filter keeps exactly the matching records in their original order: it
      works record by record and the results of two parts are concatenated. */
  lemma FilteredQueriesExact(a: seq<Query>, b: seq<Query>, q: Query, term: string)
    ensures DashboardQueries(a + b, term) == DashboardQueries(a, term) + DashboardQueries(b, term)
    ensures DashboardQueries([q], term) == if QueriesTab.QueryMatches(term, q) then [q] else []
  {
    if term == "" {
      QueriesTab.EmptyTermMatchesAll([q]);
    } else {
      FilterAppend(a, b, QueriesTab.QueryMatcher(term));
    }
  }

  /** The schema filter keeps exactly the matching records in their original order. */
  lemma FilteredSchemasExact(a: seq<UploadedSchema>, b: seq<UploadedSchema>, s: UploadedSchema, term: string)
    ensures DashboardSchemas(a + b, term) == DashboardSchemas(a, term) + DashboardSchemas(b, term)
    ensures DashboardSchemas([s], term) == if SchemasTab.SchemaMatches(term, s) then [s] else []
  {
    if term == "" {
      SchemasTab.EmptyTermMatchesAll([s]);
    } else {
      FilterAppend(a, b, SchemasTab.SchemaMatcher(term));
    }
  }

  /** The queries tab of the page: spinner, then the cards, then the empty state. */
  function QueriesPanel(queries: seq<Query>, loading: bool, term: string): (v: ListView<Query>)
    ensures v == QueriesTab.QueriesView(queries, loading, term)
  {
    var filtered := DashboardQueries(queries, term);
    if loading then Spinner
    else if |filtered| > 0 then Cards(filtered)
    else EmptyState(QueriesTab.NoQueriesTitle, if term != "" then RetrySearchHint else QueriesTab.NoQueriesHint)
  }

  const PreviewLength := 300
  const Ellipsis := "..."

  /** The code block of a schema card: SQL longer than 300 characters is cut to its
      first 300 and marked with "...". */
  function SchemaPreview(sql: string): (p: string)
    ensures |p| <= PreviewLength + |Ellipsis|
    ensures |sql| <= PreviewLength ==> p == sql
    ensures |sql| > PreviewLength ==>
              |p| == PreviewLength + |Ellipsis| && p[..PreviewLength] == sql[..PreviewLength]
              && p[PreviewLength..] == Ellipsis
  {
    if |sql| > PreviewLength then sql[..PreviewLength] + Ellipsis else sql
  }

  /** A schema card on the page: its name, creation time and SQL preview. */
  datatype SchemaCard = SchemaCard(name: string, createdAt: string, preview: string)

  function ToCard(s: UploadedSchema): SchemaCard {
    SchemaCard(s.name, s.createdAt, SchemaPreview(s.schemaSql))
  }

  /** The schemas tab of the page: spinner, then a preview card per schema, then the
      empty state. */
  function SchemasPanel(schemas: seq<UploadedSchema>, loading: bool, term: string): (v: ListView<SchemaCard>)
    ensures var list := SchemasTab.SchemasView(schemas, loading, term);
            && (v.Spinner? <==> list.Spinner?)
            && (v.EmptyState? <==> list.EmptyState?)
            && (v.EmptyState? ==> v.title == list.title && v.hint == list.hint)
            && (v.Cards? ==>
                  && list.Cards? && |v.items| == |list.items|
                  && forall k :: 0 <= k < |v.items| ==> v.items[k] == ToCard(list.items[k]))
  {
    var filtered := DashboardSchemas(schemas, term);
    if loading then Spinner
    else if |filtered| > 0 then Cards(seq(|filtered|, k requires 0 <= k < |filtered| => ToCard(filtered[k])))
    else EmptyState(SchemasTab.NoSchemasTitle, if term != "" then RetrySearchHint else SchemasTab.NoSchemasHint)
  }
}
