/**
 * The pure part of `HttpSvr.Start` (src/httpsvr/httpsvr.py): the configured
 * work path is given a trailing `/` before it is used.
 */
module Server {
  import opened Text

  /** Appends `/` unless the path already ends with one; nothing else changes. */
  function NormalizeWorkPath(workPath: string): (r: string)
    ensures EndsWith(r, '/')
    ensures |workPath| <= |r| <= |workPath| + 1 && r[..|workPath|] == workPath
    ensures EndsWith(workPath, '/') ==> r == workPath
  {
    if !EndsWith(workPath, '/') then workPath + "/" else workPath
  }

  /** Normalising twice is the same as normalising once. */
  lemma NormalizeIdempotent(workPath: string)
    ensures NormalizeWorkPath(NormalizeWorkPath(workPath)) == NormalizeWorkPath(workPath)
  {
  }
}
