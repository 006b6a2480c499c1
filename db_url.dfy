/**
 * The connection-URL fix-up that both the agent and the upload router apply
 * to `VECTOR_DB_URL`: a `postgres://` URL (the form some hosting providers
 * hand out) is rewritten to the `postgresql+psycopg://` driver form.
 */
module DbUrl {
  import opened Strings
  import opened Documents

  function PostgresScheme(): PyStr { Lit("postgres://") }
  function PsycopgScheme(): PyStr { Lit("postgresql+psycopg://") }

  /**
   * `conn.replace("postgres://", "postgresql+psycopg://", 1)` when
   * `conn.startswith("postgres://")`, else `conn`.
   */
  function RewriteUrl(conn: PyStr): (r: PyStr)
    ensures StartsWith(conn, PostgresScheme()) ==>
      r == PsycopgScheme() + conn[|PostgresScheme()|..]
    ensures !StartsWith(conn, PostgresScheme()) ==> r == conn
  {
    if StartsWith(conn, PostgresScheme()) then ReplaceFirst(conn, PostgresScheme(), PsycopgScheme())
    else conn
  }

  /** The rewritten URL never starts with `postgres://` again. */
  lemma RewriteLeavesNoPostgresScheme(conn: PyStr)
    ensures !StartsWith(RewriteUrl(conn), PostgresScheme())
  {
    var r := RewriteUrl(conn);
    if StartsWith(conn, PostgresScheme()) {
      assert r[8] == PsycopgScheme()[8] == 'q' as int;
      assert PostgresScheme()[8] == ':' as int;
    }
  }

  /** Rewriting twice is rewriting once. */
  lemma RewriteIdempotent(conn: PyStr)
    ensures RewriteUrl(RewriteUrl(conn)) == RewriteUrl(conn)
  {
    RewriteLeavesNoPostgresScheme(conn);
  }

  function VectorDbUrlKey(): PyStr { Lit("VECTOR_DB_URL") }

  /**
   * `os.environ["VECTOR_DB_URL"]` followed by the rewrite: a missing
   * variable raises `KeyError`.
   */
  function ConnectionFromEnv(env: map<PyStr, PyStr>): (r: Result<PyStr>)
    ensures VectorDbUrlKey() !in env <==> r == Err(KeyError(VectorDbUrlKey()))
    ensures r.Ok? ==> !StartsWith(r.value, PostgresScheme())
  {
    if VectorDbUrlKey() in env then
      RewriteLeavesNoPostgresScheme(env[VectorDbUrlKey()]);
      Ok(RewriteUrl(env[VectorDbUrlKey()]))
    else Err(KeyError(VectorDbUrlKey()))
  }
}
