/**
 * The API server's own logic (backend/server.js): the CORS origin check and
 * the health endpoint. The rest of that file wires framework middleware.
 */
module Server {
  import opened Js
  import Http

  const Ec2Ip := "3.107.202.99"

  /** The origins a browser may call the API from: the deployed site (with and without port 80) and local development. */
  const AllowedOrigins: set<string> := {"http://" + Ec2Ip, "http://" + Ec2Ip + ":80", "http://localhost:3000"}

  /** The CORS `origin` callback's answer: allow, or fail with an error message. */
  datatype CorsDecision = Allow | Block(message: string)

  /**
   * The `origin` callback for a request's Origin header (`None`: no header).
   * A missing or empty origin (curl, Postman) is allowed, as is an exact
   * member of the allowed set; anything else is blocked.
   */
  function DecideOrigin(origin: Option<string>): (d: CorsDecision)
    ensures d == Allow <==> origin.None? || origin.value == "" || origin.value in AllowedOrigins
    ensures d.Block? ==> d.message == "CORS blocked: " + origin.value
  {
    if origin.None? || !Truthy(origin.value) then Allow
    else if origin.value in AllowedOrigins then Allow
    else Block("CORS blocked: " + origin.value)
  }

  /** The allowed set written out. */
  lemma AllowedOriginsWrittenOut()
    ensures AllowedOrigins == {"http://3.107.202.99", "http://3.107.202.99:80", "http://localhost:3000"}
  {
    assert "http://" + Ec2Ip == "http://3.107.202.99";
    assert "http://" + Ec2Ip + ":80" == "http://3.107.202.99:80";
  }

  /** No allowed origin ends with a slash, so an allowed origin with a trailing slash is blocked. */
  lemma TrailingSlashVariantBlocked(o: string)
    requires o in AllowedOrigins
    ensures DecideOrigin(Some(o + "/")) == Block("CORS blocked: " + o + "/")
  {
    AllowedOriginsWrittenOut();
    var v := o + "/";
    assert v[|v| - 1] == '/';
    assert forall a :: a in AllowedOrigins ==> a[|a| - 1] != '/';
  }

  /** An origin other than the three allowed ones is blocked with its message. */
  lemma BlockedUnlessListed(o: string)
    requires o != "" && o != "http://3.107.202.99" && o != "http://3.107.202.99:80" && o != "http://localhost:3000"
    ensures DecideOrigin(Some(o)) == Block("CORS blocked: " + o)
  {
    AllowedOriginsWrittenOut();
  }

  /** Any port of the deployed host other than 80 is blocked, including no port text after the colon. */
  lemma OtherEc2PortsBlocked(port: string)
    requires port != "80"
    ensures var o := "http://3.107.202.99:" + port; DecideOrigin(Some(o)) == Block("CORS blocked: " + o)
  {
    var o := "http://3.107.202.99:" + port;
    assert |o| != |"http://3.107.202.99"|;
    assert o[20..] == port && "http://3.107.202.99:80"[20..] == "80";
    assert o[7] != "http://localhost:3000"[7];
    BlockedUnlessListed(o);
  }

  /** Any port of the development host other than 3000 is blocked. */
  lemma OtherLocalPortsBlocked(port: string)
    requires port != "3000"
    ensures var o := "http://localhost:" + port; DecideOrigin(Some(o)) == Block("CORS blocked: " + o)
  {
    var o := "http://localhost:" + port;
    assert o[7] != "http://3.107.202.99"[7] && o[7] != "http://3.107.202.99:80"[7];
    assert o[17..] == port && "http://localhost:3000"[17..] == "3000";
    BlockedUnlessListed(o);
  }

  /** No origin served over `https` is allowed: every allowed origin is plain `http`. */
  lemma HttpsBlocked(rest: string)
    ensures var o := "https://" + rest; DecideOrigin(Some(o)) == Block("CORS blocked: " + o)
  {
    AllowedOriginsWrittenOut();
    var o := "https://" + rest;
    assert o[4] == 's';
  }

  /** The body of `GET /api/health`. */
  datatype HealthBody = HealthBody(ok: bool)

  function Health(): (r: Http.Response<HealthBody>)
    ensures r.status == Http.OkStatus && r.body.ok
  {
    Http.Response(Http.OkStatus, HealthBody(true))
  }
}
