/**
 * The path rewrites of the development server's proxy (vite.config.ts):
 * the three API routes replace their prefix with "/api", the object-store
 * route deletes "/minio".
 */
module DevProxy {
  import opened Text

  /** `path.replace(/^\/api\/cmdb/, "/api")`. */
  function RewriteCmdb(path: string): (r: string)
    ensures StartsWith(path, "/api/cmdb") ==> r == "/api" + path[9..]
    ensures !StartsWith(path, "/api/cmdb") ==> r == path
  {
    ReplaceAnchored(path, "/api/cmdb", "/api")
  }

  /** `path.replace(/^\/api\/alert/, "/api")`. */
  function RewriteAlert(path: string): (r: string)
    ensures StartsWith(path, "/api/alert") ==> r == "/api" + path[10..]
    ensures !StartsWith(path, "/api/alert") ==> r == path
  {
    ReplaceAnchored(path, "/api/alert", "/api")
  }

  /** `path.replace(/^\/api\/task/, "/api")`. */
  function RewriteTask(path: string): (r: string)
    ensures StartsWith(path, "/api/task") ==> r == "/api" + path[9..]
    ensures !StartsWith(path, "/api/task") ==> r == path
  {
    ReplaceAnchored(path, "/api/task", "/api")
  }

  /** `path.replace("/minio", "")`: a string pattern, so the first occurrence anywhere. */
  function RewriteMinio(path: string): (r: string)
    ensures !Contains(path, "/minio") ==> r == path
    ensures Contains(path, "/minio") ==> |r| == |path| - 6
  {
    ReplaceFirst(path, "/minio", "")
  }

  /**
   * An anchored rewrite maps a path with the route's prefix to "/api" plus
   * the remainder, shorter by the prefix length minus 4, and restoring the
   * prefix gives the path back; any other path is returned unchanged.
   */
  lemma AnchoredRewrite(path: string, prefix: string)
    requires StartsWith(prefix, "/api/")
    ensures var r := ReplaceAnchored(path, prefix, "/api");
            && (StartsWith(path, prefix) ==>
                  && r == "/api" + path[|prefix|..]
                  && |r| == |path| - (|prefix| - 4)
                  && prefix + r[4..] == path)
            && (!StartsWith(path, prefix) ==> r == path)
  {
    if StartsWith(path, prefix) {
      var r := ReplaceAnchored(path, prefix, "/api");
      assert r[4..] == path[|prefix|..];
      assert path == path[..|prefix|] + path[|prefix|..];
    }
  }

  /** The three API routes follow the anchored rule with their own prefixes. */
  lemma ApiRoutesRewrite(path: string)
    ensures StartsWith(path, "/api/cmdb") ==> RewriteCmdb(path) == "/api" + path[9..] && |RewriteCmdb(path)| == |path| - 5
    ensures StartsWith(path, "/api/alert") ==> RewriteAlert(path) == "/api" + path[10..] && |RewriteAlert(path)| == |path| - 6
    ensures StartsWith(path, "/api/task") ==> RewriteTask(path) == "/api" + path[9..] && |RewriteTask(path)| == |path| - 5
    ensures !StartsWith(path, "/api/cmdb") ==> RewriteCmdb(path) == path
    ensures !StartsWith(path, "/api/alert") ==> RewriteAlert(path) == path
    ensures !StartsWith(path, "/api/task") ==> RewriteTask(path) == path
  {
    AnchoredRewrite(path, "/api/cmdb");
    AnchoredRewrite(path, "/api/alert");
    AnchoredRewrite(path, "/api/task");
  }

  /** The prefix match has no segment boundary, and a prefix in mid-path is not touched. */
  lemma PrefixWithoutBoundary()
    ensures RewriteCmdb("/api/cmdbx") == "/apix"
    ensures RewriteCmdb("/x/api/cmdb") == "/x/api/cmdb"
  {
    assert StartsWith("/api/cmdbx", "/api/cmdb");
    assert !StartsWith("/x/api/cmdb", "/api/cmdb") by {
      assert "/x/api/cmdb"[1] != "/api/cmdb"[1];
    }
  }

  /**
   * The object-store rewrite deletes exactly the first "/minio", wherever
   * it is, shortening the path by 6 (re-inserting it restores the path);
   * a path without "/minio" is unchanged.
   */
  lemma MinioRewrite(path: string)
    ensures !Contains(path, "/minio") ==> RewriteMinio(path) == path
    ensures Contains(path, "/minio") ==>
              var i := IndexOf(path, "/minio");
              var r := RewriteMinio(path);
              && 0 <= i
              && (forall j :: 0 <= j < i ==> !OccursAt(path, "/minio", j))
              && r == path[..i] + path[i + 6..]
              && |r| == |path| - 6
              && r[..i] + "/minio" + r[i..] == path
  {
    if Contains(path, "/minio") {
      var i := IndexOf(path, "/minio");
      var r := RewriteMinio(path);
      assert r[..i] == path[..i] && r[i..] == path[i + 6..];
      assert path == path[..i] + path[i..i + 6] + path[i + 6..];
    }
  }

  /** Only the first "/minio" goes; on a proxied "/minio..." path that is the leading one. */
  lemma MinioFirstOnly(rest: string)
    ensures RewriteMinio("/minio" + rest) == rest
    ensures RewriteMinio("/minio/minio/a") == "/minio/a"
  {
    assert OccursAt("/minio" + rest, "/minio", 0) by {
      assert ("/minio" + rest)[..6] == "/minio";
    }
    assert OccursAt("/minio/minio/a", "/minio", 0) by {
      assert "/minio/minio/a"[..6] == "/minio";
    }
  }
}
