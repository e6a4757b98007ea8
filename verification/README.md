# wykop.pl API client: request construction

A Dafny model of the request-building core of the Go client for the
wykop.pl API (`api/api.go`). The model covers these pieces:

- **Path rendering.** A `Request` is rendered into a URL path:
  - the resource, then the method;
  - then the values of the method params, in order;
  - then, when there are api params, one last segment holding `name,value,name,value,…`.
- **Validation.** `Build` rejects a request with an empty resource, verb or method.
- **Authentication.** `Client.Do` appends the `appkey` param, and the `userkey` param when the request needs user auth. It then builds the request and hands it to the transport.
- **Link accessors.** `Promoted`, `Upcoming`, `Index` and `Digs` build fixed GET requests.
- **User groups.** `UserGroup.Color` and `UserGroup.Name` are lookup tables.

Modules:

- `Wrappers`: the `Result` type.
- `Strings`: `strings.Join` on a one-character separator, and its inverse `Split`.
- `Decimal`: `strconv.Itoa`, and its inverse `Parse`.
- `Requests`: `Param`, `Request`, `BuildPath`, `Build`, and the path-shape lemmas.
- `Clients`: the client's keys, authentication (`WithAuth`), and `Do`.
- `Links`: the four accessors and two concrete renderings.
- `UserGroups`: the two lookup tables.

The HTTP round trip and the JSON decoding form one function that the caller passes in: `send: HttpRequest -> Result<T, Error>`. `Do` therefore has no I/O. Its contract says two things:

- a complete request reaches `send` as exactly one `HttpRequest`;
- an incomplete one never reaches it.

`Client.Do` appends the credentials to the caller's request in place. The model returns the authenticated request next to the result, as the `Call` datatype.

Two concrete renderings are proved. Link 10, with keys `app` and `user`, is fetched at `link/index/10/appkey,app,userkey,user`. The first day-sorted promoted page, with app key `app`, is fetched at `links/promoted/page,1,sort,day,appkey,app`. The accessor puts `page` and `sort` into the api params, ahead of the key, so the path carries them too.

## Model

| member | source | states |
|---|---|---|
| Strings.Join | api/api.go:31 | joining gives the empty string exactly when there are no parts, or one empty part, as Go's `strings.Join` does |
| Strings.SplitJoin | api/api.go:40 | splitting a join of separator-free parts gives back the parts, so a rendered path determines its segments |
| Strings.JoinAppend | api/api.go:37-40 | appending one last part to a join adds one separator and that part at the end |
| Strings.JoinConcat | api/api.go:28-31 | the join of two non-empty lists is the two joins with one separator between them |
| Strings.CharNotInJoin | api/api.go:31 | a character that is not the separator and is in no part is not in the join |
| Decimal.Itoa | api/api.go:137 | the rendering of a page number or id is a canonical numeral: an optional '-' exactly for negative values, digits, no leading zero |
| Decimal.ParseItoa | api/api.go:162 | parsing the rendering gives the integer back, so distinct ids give distinct path segments |
| Decimal.ItoaHasNoSeparators | api/api.go:182 | a rendered id holds neither '/' nor ',', so it is always one path segment |
| Requests.Flatten | api/api.go:27-30 | the api params become twice as many items: item 2i is the name of param i and item 2i+1 its value |
| Requests.Values | api/api.go:34-36 | only the values of the method params are kept, one per param, in order |
| Requests.ApiBlob | api/api.go:27-31 | the comma-joined api-params segment is empty exactly when there are no api params |
| Requests.BuildPath | api/api.go:26-41 | the path is the segments joined by '/'; its contract is stated by `Requests.PathShape`, `Requests.PathReadsBack` and `Requests.PathStartsWithEndpoint` |
| Requests.PathStartsWithEndpoint | api/api.go:33-40 | every path starts with `resource/method` |
| Requests.Build | api/api.go:53-58 | fails with `WrongRequest` exactly when resource, verb or method is empty; otherwise carries the verb, the host `a.wykop.pl` and the rendered path |
| Requests.PathShape | api/api.go:33-40 | the path is resource, method and the method-param values joined by '/', followed by '/' and the api-params segment exactly when there are api params |
| Requests.PathIgnoresNamesVerbAndPost | api/api.go:33-36 | method-param names, the verb, the user-auth flag and the post params do not affect the path |
| Requests.FlattenConcat | api/api.go:28-30 | flattening two parameter lists one after the other is flattening each |
| Requests.ApiBlobConcat | api/api.go:28-31 | appending api params appends their items to the segment, after a ',' when it was not empty |
| Requests.PathAppendParams | api/api.go:26-41 | appending api params extends the path: '/' when there were none and ',' otherwise, then the new items |
| Requests.PathReadsBack | api/api.go:26-41 | when no piece holds a separator, splitting the path on '/' gives resource, method, each method-param value in order, and one last segment exactly when there are api params; splitting that on ',' gives the names and values in order |
| Clients.WithAuth | api/api.go:80-83 | the old api params stay as a prefix; after them come exactly `appkey`, and then `userkey` only with user auth; nothing else in the request changes |
| Clients.AuthPath | api/api.go:80-84 | authentication adds to the end of the path: '/' or ',' and then `appkey,<app>`, with `,userkey,<user>` after it when user auth is set |
| Clients.Do | api/api.go:79-91 | the request is authenticated in place; an incomplete request fails with `WrongRequest` without reaching the transport; a complete one is sent once with its verb, the fixed host and the authenticated path, and the transport's result is passed through |
| Clients.DoSends | api/api.go:79-91 | end to end, the transport sees the unauthenticated path followed by the credentials |
| Links.ListingSegments | api/api.go:133-139 | an authenticated listing request has the segments `links`, the listing, and `page,<page>,sort,<sort>,appkey,<app>` |
| Links.LinkSegments | api/api.go:157-164 | an authenticated request about a link has the segments `link`, the method, the id, and `appkey,<app>` followed by `,userkey,<user>` only with user auth |
| Links.Promoted | api/api.go:131-141 | GET `links/promoted/page,<page>,sort,<sort>,appkey,<app>`; the user key is never sent |
| Links.Upcoming | api/api.go:143-153 | GET `links/upcoming/page,<page>,sort,<sort>,appkey,<app>`; the user key is never sent |
| Links.Index | api/api.go:155-166 | GET `link/index/<id>/appkey,<app>,userkey,<user>` |
| Links.Digs | api/api.go:176-186 | GET `link/digs/<id>/appkey,<app>`; the user key is never sent |
| Links.IndexOfTen | api/api.go:155-166 | link 10 with keys `app` and `user` is fetched from `a.wykop.pl` at `link/index/10/appkey,app,userkey,user` |
| Links.PromotedFirstPageByDay | api/api.go:131-141 | the first day-sorted promoted page with key `app` is fetched at `links/promoted/page,1,sort,day,appkey,app` |
| UserGroups.Color | api/api.go:283-301 | defined on exactly the seven codes of api/api.go:273-281 (the source panics on any other); every colour is `#` and six upper-case hex digits; green and orange are exactly the `#339933` groups; banned and deleted are exactly the `#999999` groups |
| UserGroups.Name | api/api.go:303-321 | every known group has a non-empty name |
| UserGroups.NameInjective | api/api.go:303-321 | two known groups have the same name exactly when they are the same group |
| UserGroups.SharedColors | api/api.go:283-301 | two different groups share a colour exactly when they are green and orange, or banned and deleted |

## Left out

- The HTTP execution, the closing of the response body and the JSON decoding (api/api.go:88-103) are I/O and foreign library calls. They are the caller-supplied `send`, whose errors are modelled as `Transport`.
- `BuildURL` and `url.URL.String()` (api/api.go:43-49) are not modelled. Escaping and leading-slash insertion belong to Go's standard library. The built request carries the host and the path.
- The package-level `Scheme` variable (api/api.go:24) is global configuration, not logic.
- Requests.Build: errors that `http.NewRequest` could report for a malformed URL or verb (api/api.go:58) are not modelled. A complete request always builds.
- `Comments`, `Reports`, `Related` and `BuryReasons` (api/api.go:168-194) only panic. There is nothing to model.
- The data structs `Link`, `Comment`, `Dig`, `Bury`, `RelatedLink`, `AuthorInfo`, `Error` and `WrappedError` carry no behaviour. The decoded value is the type parameter `T`.
- `New`, `Links()` and `Link()` (api/api.go:75-77, 196-202) only wrap values. A `Client` is its two keys, and an accessor takes the client directly.
- Go's `int` is at most 64 bits wide, depending on the platform. The model renders any integer, and for integers in range the rendering is the same.
- The sort orders are not validated, as in the source: any string is passed through.
- `UserGroups.Color` and `UserGroups.Name` require a known code where the source panics on an unknown one.
- api/api_test.go is not part of this model. It exercises the fake transport and decoding, and calls a `DoAndParse` that `api/api.go` does not define.
