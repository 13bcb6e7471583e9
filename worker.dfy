/** The Cloudflare worker in front of the static assets: serve the asset;
    if that is a 404 for a GET whose path does not look like a file, serve
    `/index.html` of the same origin instead, so the client-side router can
    take over. `ASSETS.fetch` is the oracle `assets`. */
module Worker {

  datatype Request = Request(verb: string, origin: string, path: string)

  datatype AssetResponse = AssetResponse(status: int, body: string)

  /** The response the worker returns and the asset fetches it made, in order. */
  datatype Served = Served(response: AssetResponse, fetched: seq<Request>)

  /** `[a-zA-Z0-9]` */
  predicate IsAlnum(c: char) {
    ('a' <= c <= 'z') || ('A' <= c <= 'Z') || ('0' <= c <= '9')
  }

  /** The length of the longest run of `[a-zA-Z0-9]` that ends `s`. */
  function TrailingAlnum(s: string): (k: nat)
    ensures k <= |s|
    ensures forall j :: |s| - k <= j < |s| ==> IsAlnum(s[j])
    ensures k < |s| ==> !IsAlnum(s[|s| - 1 - k])
    decreases |s|
  {
    if s == [] || !IsAlnum(s[|s| - 1]) then 0
    else 1 + TrailingAlnum(s[..|s| - 1])
  }

  /** `/\.[a-zA-Z0-9]+$/.test(path)`: a dot followed by one or more ASCII
      letters or digits and nothing else up to the end of the path (without
      the `m` flag, `$` matches only at the end of the input). */
  function LooksLikeFile(path: string): (r: bool)
    ensures r <==> exists i :: 0 <= i < |path| - 1 && path[i] == '.' && AllAlnumAfter(path, i)
  {
    var k := TrailingAlnum(path);
    var r := 1 <= k < |path| && path[|path| - 1 - k] == '.';
    if r then
      assert AllAlnumAfter(path, |path| - 1 - k);
      r
    else
      assert forall i | 0 <= i < |path| - 1 && path[i] == '.' && AllAlnumAfter(path, i)
        :: TrailingAlnum(path) == |path| - 1 - i by {
        forall i | 0 <= i < |path| - 1 && path[i] == '.' && AllAlnumAfter(path, i) {
          RunEndsAtNonAlnum(path, i);
        }
      }
      r
  }

  /** When `s[i]` is not alphanumeric and everything after it is, the trailing
      run is exactly what follows `i`. */
  lemma {:induction false} RunEndsAtNonAlnum(s: string, i: int)
    requires 0 <= i < |s| && !IsAlnum(s[i]) && AllAlnumAfter(s, i)
    ensures TrailingAlnum(s) == |s| - 1 - i
    decreases |s|
  {
    if i < |s| - 1 {
      var init := s[..|s| - 1];
      assert init[i] == s[i];
      assert AllAlnumAfter(init, i);
      RunEndsAtNonAlnum(init, i);
    }
  }

  /** Every character after index `i` is `[a-zA-Z0-9]`. */
  predicate AllAlnumAfter(path: string, i: int)
    requires 0 <= i < |path|
  {
    forall j :: i < j < |path| ==> IsAlnum(path[j])
  }

  /** The condition of the SPA fallback: a GET answered 404 whose path has
      no dot followed only by letters and digits to its end. */
  predicate RewritesToIndex(req: Request, first: AssetResponse)
    ensures RewritesToIndex(req, first) <==>
              first.status == 404 && req.verb == "GET" &&
              forall i :: 0 <= i < |req.path| - 1 && req.path[i] == '.' ==> !AllAlnumAfter(req.path, i)
  {
    first.status == 404 && req.verb == "GET" && !LooksLikeFile(req.path)
  }

  /** The worker's `fetch` handler. */
  function Fetch(req: Request, assets: Request -> AssetResponse): (s: Served)
    ensures |s.fetched| in {1, 2} && s.fetched[0] == req
    ensures |s.fetched| == 2 <==> RewritesToIndex(req, assets(req))
    ensures |s.fetched| == 2 ==>
              s.fetched[1] == Request(req.verb, req.origin, "/index.html")
              && s.response == assets(s.fetched[1])
    ensures |s.fetched| == 1 ==> s.response == assets(req)
  {
    var res := assets(req);
    if res.status == 404 && req.verb == "GET" && !LooksLikeFile(req.path) then
      var index := Request(req.verb, req.origin, "/index.html");
      Served(assets(index), [req, index])
    else
      Served(res, [req])
  }

  /** A 404 for anything but GET is passed through untouched. */
  lemma NonGetIsPassedThrough(req: Request, assets: Request -> AssetResponse)
    requires req.verb != "GET"
    ensures Fetch(req, assets) == Served(assets(req), [req])
  {
  }

  /** Paths that look like files, and paths that do not. */
  lemma LooksLikeFileExamples()
    ensures LooksLikeFile("/app.js") && LooksLikeFile("/v1.2")
    ensures !LooksLikeFile("/a.b/c") && !LooksLikeFile("/x.") && !LooksLikeFile("/")
  {
    assert "/app.js"[4] == '.' && AllAlnumAfter("/app.js", 4);
    assert "/v1.2"[3] == '.' && AllAlnumAfter("/v1.2", 3);
    assert TrailingAlnum("/a.b/c") == 1 by {
      assert "/a.b/c"[..5] == "/a.b/";
    }
    assert TrailingAlnum("/x.") == 0;
    assert TrailingAlnum("/") == 0;
  }
}
