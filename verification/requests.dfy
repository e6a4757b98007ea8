/** Requests to the wykop.pl API and their rendering into a URL path
    (api/api.go: Request, Param, BuildPath, Build). Every parameter travels
    in the path: resource, method, the values of the method params, then one
    comma-joined segment holding the api params. */
module Requests {
  import opened Wrappers
  import opened Strings

  /** A named parameter. The same shape serves method params (only the
      value is sent) and api params (name and value are both sent). */
  datatype Param = Param(name: string, value: string)

  /** One API call: HTTP verb, whether the user key must be sent, the
      endpoint, and its three parameter groups. Post params are carried
      but never rendered. */
  datatype Request = Request(
    requestMethod: string,
    userAuth: bool,
    resource: string,
    methodName: string,
    methodParams: seq<Param>,
    apiParams: seq<Param>,
    postParams: seq<Param>)

  /** The fixed API host. */
  const Host: string := "a.wykop.pl"

  /** The HTTP verb every implemented accessor uses. */
  const MethodGet: string := "GET"

  /** What the builder hands to the transport: verb, host and path of the
      URL. There is never a body. */
  datatype HttpRequest = HttpRequest(verb: string, host: string, path: string)

  /** `WrongRequest` is the builder's rejection of an incomplete request;
      `Transport` is any error the transport or the JSON decoder reports,
      passed through as it is. */
  datatype Error = WrongRequest | Transport(message: string)

  /** The api params as one list of items: each name followed by its value. */
  function Flatten(ps: seq<Param>): (items: seq<string>)
    ensures |items| == 2 * |ps|
    ensures forall i :: 0 <= i < |ps| ==> items[2 * i] == ps[i].name
    ensures forall i :: 0 <= i < |ps| ==> items[2 * i + 1] == ps[i].value
  {
    if |ps| == 0 then []
    else
      var tail := Flatten(ps[1..]);
      assert forall i :: 1 <= i < |ps| ==> tail[2 * (i - 1)] == ps[i].name;
      assert forall i :: 1 <= i < |ps| ==> tail[2 * (i - 1) + 1] == ps[i].value;
      [ps[0].name, ps[0].value] + tail
  }

  /** The values of the method params, in order; their names are dropped. */
  function Values(ps: seq<Param>): (vs: seq<string>)
    ensures |vs| == |ps|
    ensures forall i :: 0 <= i < |ps| ==> vs[i] == ps[i].value
  {
    if |ps| == 0 then [] else [ps[0].value] + Values(ps[1..])
  }

  /** The comma-joined api-params segment. */
  function ApiBlob(ps: seq<Param>): (blob: string)
    ensures blob == "" <==> |ps| == 0
  {
    Join(Flatten(ps), ',')
  }

  /** The path segments in order: resource, method, method-param values,
      and the api-params segment when it is not empty. */
  function Segments(r: Request): seq<string>
  {
    var blob := ApiBlob(r.apiParams);
    [r.resource, r.methodName] + Values(r.methodParams) + (if blob == "" then [] else [blob])
  }

  /** The URL path of `r`: its segments joined with '/'. */
  function BuildPath(r: Request): string
  {
    Join(Segments(r), '/')
  }

  /** The path starts with `resource/method`. */
  lemma PathStartsWithEndpoint(r: Request)
    ensures r.resource + "/" + r.methodName <= BuildPath(r)
  {
    JoinPrefix(Segments(r), '/');
  }

  /** The request is complete: resource, verb and method are all set. */
  predicate Complete(r: Request)
  {
    r.resource != "" && r.requestMethod != "" && r.methodName != ""
  }

  /** Rejects a request with an empty resource, verb or method; otherwise
      gives the transport request for the rendered path, with no body. */
  function Build(r: Request): (res: Result<HttpRequest, Error>)
    ensures res.Failure? <==> r.resource == "" || r.requestMethod == "" || r.methodName == ""
    ensures res.Failure? ==> res.error == WrongRequest
    ensures res.Success? ==> res.value.verb == r.requestMethod && res.value.host == Host
    ensures res.Success? ==> res.value.path == BuildPath(r)
    ensures res.Success? ==> r.resource + "/" + r.methodName <= res.value.path
  {
    if !Complete(r) then Failure(WrongRequest)
    else
      PathStartsWithEndpoint(r);
      Success(HttpRequest(r.requestMethod, Host, BuildPath(r)))
  }

  /** The path is `resource/method/v1/.../vn`, followed by `/` and the
      api-params segment exactly when there are api params. */
  lemma PathShape(r: Request)
    ensures BuildPath(r) ==
      Join([r.resource, r.methodName] + Values(r.methodParams), '/')
      + (if |r.apiParams| == 0 then "" else "/" + ApiBlob(r.apiParams))
  {
    var head := [r.resource, r.methodName] + Values(r.methodParams);
    if |r.apiParams| == 0 {
      assert Segments(r) == head;
    } else {
      assert Segments(r) == head + [ApiBlob(r.apiParams)];
      JoinAppend(head, ApiBlob(r.apiParams), '/');
    }
  }

  /** Only the values of the method params reach the path: renaming them,
      or changing the verb, the user-auth flag or the post params, leaves the
      path as it was. */
  lemma PathIgnoresNamesVerbAndPost(r: Request, s: Request)
    requires s.resource == r.resource && s.methodName == r.methodName
    requires Values(s.methodParams) == Values(r.methodParams)
    requires s.apiParams == r.apiParams
    ensures BuildPath(s) == BuildPath(r)
  {
  }

  /** Flattening distributes over concatenation of parameter lists. */
  lemma {:induction false} FlattenConcat(ps: seq<Param>, qs: seq<Param>)
    ensures Flatten(ps + qs) == Flatten(ps) + Flatten(qs)
    decreases |ps|
  {
    if |ps| == 0 {
      assert ps + qs == qs;
    } else {
      assert (ps + qs)[1..] == ps[1..] + qs;
      FlattenConcat(ps[1..], qs);
    }
  }

  /** Appending api params extends the api-params segment: after the
      existing items, and a ',' when there were any, come the new items. */
  lemma ApiBlobConcat(ps: seq<Param>, qs: seq<Param>)
    requires |qs| > 0
    ensures ApiBlob(ps + qs) ==
      (if |ps| == 0 then ApiBlob(qs) else ApiBlob(ps) + "," + ApiBlob(qs))
  {
    FlattenConcat(ps, qs);
    if |ps| == 0 {
      assert ps + qs == qs;
    } else {
      JoinConcat(Flatten(ps), Flatten(qs), ',');
    }
  }

  /** Appending api params to a request extends its path: after the old
      path comes '/' when there were no api params and ',' otherwise, then
      the new items. */
  lemma PathAppendParams(r: Request, qs: seq<Param>)
    requires |qs| > 0
    ensures BuildPath(r.(apiParams := r.apiParams + qs)) ==
      BuildPath(r) + (if |r.apiParams| == 0 then "/" else ",") + ApiBlob(qs)
  {
    var a := r.(apiParams := r.apiParams + qs);
    var head := Join([r.resource, r.methodName] + Values(r.methodParams), '/');
    PathShape(r);
    PathShape(a);
    ApiBlobConcat(r.apiParams, qs);
    Regroup(BuildPath(r), BuildPath(a), head,
      ApiBlob(r.apiParams), ApiBlob(a.apiParams), ApiBlob(qs), |r.apiParams| > 0);
  }

  /** The string step of `PathAppendParams`: a path `head` or `head/before`
      becomes `head/added` or `head/before,added`. */
  lemma Regroup(p: string, q: string, head: string, before: string, all: string, added: string, hasOld: bool)
    requires p == head + (if hasOld then "/" + before else "")
    requires q == head + "/" + all
    requires all == (if hasOld then before + "," + added else added)
    ensures q == p + (if hasOld then "," else "/") + added
  {
    if hasOld {
      assert head + "/" + (before + "," + added) == head + ("/" + before) + "," + added;
    }
  }

  /** Every piece of the request that reaches the path is free of '/', and
      every api param name and value is free of ','. */
  predicate Splittable(r: Request)
  {
    && '/' !in r.resource && '/' !in r.methodName
    && NoneContains(Values(r.methodParams), '/')
    && NoneContains(Flatten(r.apiParams), '/')
    && NoneContains(Flatten(r.apiParams), ',')
  }

  /** For a splittable request the path can be read back: splitting on '/'
      gives resource, method, each method-param value in order and, when
      there are api params, one last segment; splitting that on ',' gives
      name, value, name, value, ... in order. */
  lemma PathReadsBack(r: Request)
    requires Splittable(r)
    ensures var segs := Split(BuildPath(r), '/');
      && |segs| == 2 + |r.methodParams| + (if |r.apiParams| == 0 then 0 else 1)
      && segs[0] == r.resource && segs[1] == r.methodName
      && (forall i :: 0 <= i < |r.methodParams| ==> segs[2 + i] == r.methodParams[i].value)
      && (|r.apiParams| > 0 ==> Split(segs[|segs| - 1], ',') == Flatten(r.apiParams))
  {
    var blob := ApiBlob(r.apiParams);
    var segs := Segments(r);
    var vals := Values(r.methodParams);
    assert segs[..2] == [r.resource, r.methodName];
    assert NoneContains(segs, '/') by {
      forall k | 0 <= k < |segs|
        ensures '/' !in segs[k]
      {
        if 2 <= k < 2 + |vals| {
          assert segs[k] == vals[k - 2];
        } else if k >= 2 + |vals| {
          assert segs[k] == blob;
          CharNotInJoin(Flatten(r.apiParams), ',', '/');
        }
      }
    }
    SplitJoin(segs, '/');
    assert forall i :: 0 <= i < |r.methodParams| ==> segs[2 + i] == vals[i];
    if |r.apiParams| > 0 {
      assert segs[|segs| - 1] == blob;
      SplitJoin(Flatten(r.apiParams), ',');
    }
  }
}
