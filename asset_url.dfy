/**
 * Resolution of static asset paths against the deployment base path
 * (`BASE_URL` from the build environment, given here as a parameter).
 */
module AssetUrl {

  /** The module-level `base`: `BASE_URL || '/'`, with a '/' appended unless it ends in one. */
  function NormalizeBase(raw: string): (base: string)
    ensures |base| > 0 && base[|base| - 1] == '/'
    ensures raw != [] && raw[|raw| - 1] == '/' ==> base == raw
    ensures raw != [] && raw[|raw| - 1] != '/' ==> base == raw + "/"
    ensures raw == [] ==> base == "/"
  {
    var r := if raw == [] then "/" else raw;
    if r[|r| - 1] == '/' then r else r + "/"
  }

  /** `path.startsWith('/') ? path.slice(1) : path`. */
  function NormalizePath(path: string): (p: string)
    ensures |path| > 0 && path[0] == '/' ==> path == "/" + p
    ensures !(|path| > 0 && path[0] == '/') ==> p == path
  {
    if |path| > 0 && path[0] == '/' then path[1..] else path
  }

  /**
   * `assetUrl`: the normalised base followed by the path less one
   * leading '/'; the base is always a prefix of the result.
   */
  function ResolveAsset(rawBase: string, path: string): (url: string)
    ensures NormalizeBase(rawBase) <= url
    ensures |url| == |NormalizeBase(rawBase)| + |path| - (if |path| > 0 && path[0] == '/' then 1 else 0)
    ensures url[|NormalizeBase(rawBase)|..] == NormalizePath(path)
  {
    NormalizeBase(rawBase) + NormalizePath(path)
  }

  /** One leading '/' makes no difference to the resolved URL. */
  lemma LeadingSlashIgnored(rawBase: string, x: string)
    requires !(|x| > 0 && x[0] == '/')
    ensures ResolveAsset(rawBase, "/" + x) == ResolveAsset(rawBase, x)
  {
    assert ("/" + x)[1..] == x;
  }
}
