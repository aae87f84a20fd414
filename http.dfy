/** Requests and responses as the front end sees them. A request is what one
    call to `fetch` sends; the network is a function from requests to
    responses, passed to every operation that talks to a server. */
module Http {
  import opened Js

  datatype Verb = GET | POST | PUT | DELETE

  /** An ordered list of key/value pairs: query parameters, headers, or the
      fields of a JSON body. */
  type Pairs = seq<(string, string)>

  /** One `fetch`: the HTTP verb, the path below the configured base URL, the
      query, the headers and the fields of the JSON body (empty when there is
      none). */
  datatype Request = Request(verb: Verb, path: string, query: Pairs, headers: Pairs, body: Pairs)

  /** What awaiting `fetch` and then reading the body yields: either the fetch
      itself rejects, or a response arrives whose status is ok or not and
      whose body can be read as a T (`Some`) or cannot (`None`, reading it
      throws). */
  datatype Response<T> = NetworkError | Reply(ok: bool, body: Option<T>)

  /** The response is ok and its body could be read. */
  predicate Delivered<T>(r: Response<T>) {
    r.Reply? && r.ok && r.body.Some?
  }

  /** The shape shared by the calls that swallow failures: the body of an ok
      response when it can be read, and the fixed fallback on a non-ok status,
      a network failure or an unreadable body. */
  function Settle<T>(r: Response<T>, fallback: T): (v: T)
    ensures Delivered(r) ==> v == r.body.value
    ensures !Delivered(r) ==> v == fallback
  {
    match r
    case Reply(true, Some(payload)) => payload
    case _ => fallback
  }

  /** The header that authenticates a request: `Authorization: Bearer <token>`. */
  function Bearer(token: string): (string, string) {
    ("Authorization", "Bearer " + token)
  }

  const JsonContent: (string, string) := ("Content-Type", "application/json")

  /** The value a query or header list gives for a key, as URLSearchParams.get
      reads it: the first pair with that key, or nothing. */
  function ValueOf(ps: Pairs, key: string): (v: Option<string>)
    ensures v.None? <==> forall k :: 0 <= k < |ps| ==> ps[k].0 != key
    ensures v.Some? ==> exists k :: 0 <= k < |ps| && ps[k] == (key, v.value)
                                    && forall j :: 0 <= j < k ==> ps[j].0 != key
  {
    if ps == [] then None
    else if ps[0].0 == key then Some(ps[0].1)
    else
      var v := ValueOf(ps[1..], key);
      assert v.Some? ==> exists k :: 0 <= k < |ps| && ps[k] == (key, v.value)
                                     && forall j :: 0 <= j < k ==> ps[j].0 != key by {
        if v.Some? {
          var k :| 0 <= k < |ps| - 1 && ps[1..][k] == (key, v.value)
                   && forall j :: 0 <= j < k ==> ps[1..][j].0 != key;
          assert ps[k + 1] == (key, v.value);
          assert forall j :: 0 <= j < k + 1 ==> ps[j].0 != key by {
            forall j | 0 <= j < k + 1 ensures ps[j].0 != key {
              if j > 0 { assert ps[j] == ps[1..][j - 1]; }
            }
          }
        }
      }
      v
  }
}
