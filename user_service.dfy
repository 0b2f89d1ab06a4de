/** The user service's URL builder for profile images. */
module UserService {
  import opened Js

  /** The path with a leading '/' added when it has none. */
  function CleanPath(imagePath: string): (r: string)
    ensures StartsWith(imagePath, "/") ==> r == imagePath
    ensures !StartsWith(imagePath, "/") ==> r == "/" + imagePath
    ensures StartsWith(r, "/")
  {
    if StartsWith(imagePath, "/") then imagePath else "/" + imagePath
  }

  /** Cleaning twice adds nothing: at most one '/' is ever prepended. */
  lemma CleanPathIdempotent(imagePath: string)
    ensures CleanPath(CleanPath(imagePath)) == CleanPath(imagePath)
  {
  }

  /** `getImageUrl`: nothing for a missing or empty path, an absolute URL as it is, and
      otherwise the API URL without its first "/api" followed by the path. */
  function GetImageUrl(imagePath: Option<string>, apiUrl: string): (r: Option<string>)
    ensures !Truthy(imagePath) <==> r.None?
    ensures Truthy(imagePath) && StartsWith(imagePath.value, "http") ==> r == imagePath
    ensures Truthy(imagePath) && !StartsWith(imagePath.value, "http") ==>
      r == Some(RemoveFirst(apiUrl, "/api") + CleanPath(imagePath.value))
  {
    if !Truthy(imagePath) then None
    else if StartsWith(imagePath.value, "http") then imagePath
    else Some(RemoveFirst(apiUrl, "/api") + CleanPath(imagePath.value))
  }

  /** A relative path comes after the base, with exactly one '/' joining them when the path
      already had one, and a base that holds no "/api" is used unchanged. */
  lemma ImageUrlShape(imagePath: string, apiUrl: string)
    requires imagePath != "" && !StartsWith(imagePath, "http")
    ensures var base := RemoveFirst(apiUrl, "/api");
      var r := GetImageUrl(Some(imagePath), apiUrl).value;
      StartsWith(r, base) && |r| > |base| && r[|base|] == '/' &&
      r[|base| + 1..] == (if StartsWith(imagePath, "/") then imagePath[1..] else imagePath)
    ensures !Contains(apiUrl, "/api") ==> GetImageUrl(Some(imagePath), apiUrl) == Some(apiUrl + CleanPath(imagePath))
  {
    var base := RemoveFirst(apiUrl, "/api");
    var c := CleanPath(imagePath);
    var r := base + c;
    assert r[..|base|] == base;
    assert r[|base|..] == c;
    ContainsIff(apiUrl, "/api");
    RemoveFirstSpec(apiUrl, "/api");
  }
}
