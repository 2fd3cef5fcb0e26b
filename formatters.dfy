/** The client's image URL builder. */
module Formatters {
  import opened Wrappers
  import opened Text
  import opened Json

  const DefaultApiUrl := "http://localhost:5000/api"

  /** `process.env.REACT_APP_API_URL || 'http://localhost:5000/api'`. */
  function ApiUrl(env: Option<string>): (r: string)
    ensures TruthyText(env) ==> r == env.value
    ensures !TruthyText(env) ==> r == DefaultApiUrl
  {
    if TruthyText(env) then env.value else DefaultApiUrl
  }

  /** `apiUrl.replace('/api', '')`: only the first occurrence goes. */
  function BaseUrl(apiUrl: string): (r: string)
    ensures |r| == if IndexOf(apiUrl, "/api") == -1 then |apiUrl| else |apiUrl| - 4
  {
    ReplaceFirst(apiUrl, "/api", "")
  }

  /** `getImageUrl(imageName)` with `REACT_APP_API_URL` as `env`. */
  function GetImageUrl(imageName: Option<string>, env: Option<string>): (r: string)
    ensures !TruthyText(imageName) ==> r == ""
    ensures TruthyText(imageName) ==> r == BaseUrl(ApiUrl(env)) + "/uploads/" + imageName.value
  {
    if !TruthyText(imageName) then "" else BaseUrl(ApiUrl(env)) + "/uploads/" + imageName.value
  }

  /** The default URL holds no `"/api"` before its last four characters. */
  lemma DefaultApiAtEnd()
    ensures forall k :: 0 <= k < 21 ==> !OccursAt(DefaultApiUrl, "/api", k)
  {
    forall k | 0 <= k < 21
      ensures !OccursAt(DefaultApiUrl, "/api", k)
    {
      // the only 'i' of the default URL is its last character
      assert DefaultApiUrl[k..k + 4][3] == DefaultApiUrl[k + 3];
      assert forall j :: 0 <= j < 24 ==> DefaultApiUrl[j] != 'i';
    }
  }

  /** The default URL's base is the local development server. */
  lemma DefaultBaseUrl()
    ensures BaseUrl(DefaultApiUrl) == "http://localhost:5000"
  {
    DefaultApiAtEnd();
    assert "http://localhost:5000" + "/api" + "" == DefaultApiUrl;
    FirstApiRemoved("http://localhost:5000", "");
  }

  /** With no configured URL, images come from the local development server. */
  lemma DefaultImageUrl(imageName: string, env: Option<string>)
    requires imageName != "" && !TruthyText(env)
    ensures GetImageUrl(Some(imageName), env) == "http://localhost:5000" + "/uploads/" + imageName
  {
    assert ApiUrl(env) == DefaultApiUrl;
    DefaultBaseUrl();
  }

  /** A URL without `"/api"` is the base unchanged. */
  lemma NoApiUnchanged(apiUrl: string)
    requires forall k :: !OccursAt(apiUrl, "/api", k)
    ensures BaseUrl(apiUrl) == apiUrl
  {
  }

  /** Only the first `"/api"` is removed: a URL `p + "/api" + q` in which no
      earlier `"/api"` starts becomes `p + q`, whatever `q` holds. */
  lemma FirstApiRemoved(p: string, q: string)
    requires forall k :: 0 <= k < |p| ==> !OccursAt(p + "/api" + q, "/api", k)
    ensures BaseUrl(p + "/api" + q) == p + q
  {
    var s := p + "/api" + q;
    assert s[..|p|] == p;
    assert s[|p|..|p| + 4] == "/api";
    assert s[|p| + 4..] == q;
    ReplaceFirstAt(s, "/api", "", |p|);
    assert p + "" + q == p + q;
  }
}
