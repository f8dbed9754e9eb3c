/**
 * Image-path resolution shared by the cart, wishlist, product list and
 * product detail pages: an empty path shows the inline placeholder, absolute
 * and `blob:` URLs pass through, a bare file name is served from the
 * uploads folder, anything else passes through.
 */
module Images {
  import opened Strings
  import Api

  const FallbackImage := "data:image/" + "svg+xml;utf8,<svg width=\"200\" height=\"200\" xmlns=\"http://www.w3.org/2000/svg\"><rect fill=\"%23f5f5f5\" width=\"200\" height=\"200\"/><text x=\"50%25\" y=\"50%25\" dominant-baseline=\"middle\" text-anchor=\"middle\" fill=\"%23999\" font-size=\"20\">Image</text></svg>"

  const DefaultBackend := "http://localhost:8000"

  /** `process.env.<VAR> || "http://localhost:8000"`; `env` is "" when the variable is unset. */
  function BackendBase(env: string): (r: string)
    ensures env != "" ==> r == env
    ensures env == "" ==> r == DefaultBackend
  {
    if env != "" then env else DefaultBackend
  }

  predicate PassesThrough(path: string) {
    StartsWith(path, "http://") || StartsWith(path, "https://") || StartsWith(path, "blob:")
  }

  /** A bare file name: non-empty, not a URL, and without any "/". */
  predicate IsBareName(path: string) {
    path != "" && !PassesThrough(path) && '/' !in path
  }

  /** A path whose first letter is neither 'h' nor 'b' is no URL the resolver passes through. */
  lemma PlainInitial(path: string)
    requires |path| > 0 && path[0] != 'h' && path[0] != 'b'
    ensures !PassesThrough(path)
  {
  }

  /** `getImageUrl` with `prefix` put before "/uploads/". */
  function ResolveImage(prefix: string, path: string): (r: string)
    ensures r != ""
    ensures path == "" ==> r == FallbackImage
    ensures IsBareName(path) ==> r == prefix + "/uploads/" + path
    ensures path != "" && !IsBareName(path) ==> r == path
  {
    if path == "" then FallbackImage
    else if StartsWith(path, "http://") || StartsWith(path, "https://") then path
    else if StartsWith(path, "blob:") then path
    else if '/' !in path then prefix + "/uploads/" + path
    else path
  }

  lemma FallbackHasSlash()
    ensures '/' in FallbackImage && !IsBareName(FallbackImage)
  {
    assert FallbackImage[10] == "data:image/"[10];
  }

  /** With an absolute prefix, resolving a resolved path changes nothing. */
  lemma ResolveIdempotent(prefix: string, path: string)
    requires StartsWith(prefix, "http://") || StartsWith(prefix, "https://")
    ensures ResolveImage(prefix, ResolveImage(prefix, path)) == ResolveImage(prefix, path)
  {
    var r := ResolveImage(prefix, path);
    if path == "" {
      FallbackHasSlash();
    } else if IsBareName(path) {
      assert r[..|prefix|] == prefix;
      if StartsWith(prefix, "http://") {
        assert r[..7] == prefix[..7];
      } else {
        assert r[..8] == prefix[..8];
      }
    }
  }

  /** The file name of an uploaded image is what follows the last "/" of its URL. */
  lemma UploadNameRecoverable(prefix: string, name: string)
    requires IsBareName(name)
    ensures AfterLast(ResolveImage(prefix, name), '/') == name
  {
    assert prefix + "/uploads/" + name == (prefix + "/uploads") + ['/'] + name;
    AfterLastOf(prefix + "/uploads", '/', name);
  }

  /**
   * `getImageUrl` of the cart, wishlist and product list pages: one resolver
   * over "the variable, else the local server". The cart and wishlist pages
   * read the backend variable, the product list the API variable; `env` is
   * the value of whichever one the page reads.
   */
  function PageImageUrl(env: string, path: string): (r: string)
    ensures path == "" ==> r == FallbackImage
    ensures IsBareName(path) ==> r == BackendBase(env) + "/uploads/" + path
    ensures path != "" && !IsBareName(path) ==> r == path
  {
    ResolveImage(BackendBase(env), path)
  }

  /** The product detail page as written: the prefix is `buildApiUrl("")`, which already ends in "/". */
  function DetailImageUrlAsWritten(apiEnv: string, path: string): (r: string)
    ensures IsBareName(path) ==> r == Api.ApiBase(apiEnv) + "//uploads/" + path
    ensures !IsBareName(path) ==> r == ResolveImage(Api.ApiBase(apiEnv), path)
  {
    Api.EmptyEndpoint(Api.ApiBase(apiEnv));
    ResolveImage(Api.BuildApiUrl(Api.ApiBase(apiEnv), ""), path)
  }

  /** On the default configuration an uploaded file's URL carries a doubled "/". */
  lemma DetailDoubleSlash()
    ensures DetailImageUrlAsWritten("", "shirt.png") == "http://localhost:8000/api//uploads/shirt.png"
  {
    ShirtIsBare();
    assert DetailImageUrlAsWritten("", "shirt.png") == Api.DefaultBase + "//uploads/" + "shirt.png";
  }

  lemma ShirtIsBare()
    ensures IsBareName("shirt.png")
  {
    PlainInitial("shirt.png");
    var s := "shirt.png";
    assert forall i :: 0 <= i < |s| ==> s[i] != '/';
  }

  /** The product detail page with a single "/" between the API base and "uploads". */
  function DetailImageUrl(apiEnv: string, path: string): (r: string)
    ensures IsBareName(path) ==> r == Api.ApiBase(apiEnv) + "/uploads/" + path
    ensures !IsBareName(path) ==> r == DetailImageUrlAsWritten(apiEnv, path)
  {
    ResolveImage(Api.ApiBase(apiEnv), path)
  }

  lemma DetailSingleSlash()
    ensures DetailImageUrl("", "shirt.png") == "http://localhost:8000/api/uploads/shirt.png"
  {
    ShirtIsBare();
    assert DetailImageUrl("", "shirt.png") == Api.DefaultBase + "/uploads/" + "shirt.png";
  }
}
