/**
 * The part of a Flask/Werkzeug response this core touches: a JSON body, a status
 * code and a multi-valued header list.
 */
module Http {
  import opened Base
  import opened V2Errors

  /** Where the next page starts, as the query of a `Link: <...>; rel="next"` header. */
  datatype LinkCursor = NextPage(token: string) | Last(name: string)

  /** A header value. A `Link` is kept structurally as (base URL, `n`, cursor)
      rather than as its URL-encoded text. */
  datatype HeaderValue = Text(text: string) | NextLink(url: string, n: int, cursor: LinkCursor)

  /** Werkzeug's header list grouped by name: every name maps to its values in order. */
  type Headers = map<string, seq<HeaderValue>>

  /** A response body: a handler's own payload, or `{"errors": [e.as_dict() for e in errors]}`. */
  datatype Body = Payload(data: string) | ErrorEnvelope(errors: seq<V2Error>)

  datatype ResponseState = ResponseState(body: Body, status: int, headers: Headers)

  /** The values stored under `name`; none when the header is absent. */
  function Values(h: Headers, name: string): seq<HeaderValue> {
    if name in h then h[name] else []
  }

  /** `headers.add(name, value)`: one more value under `name`, every other name untouched. */
  function Added(h: Headers, name: string, v: HeaderValue): (r: Headers)
    ensures Values(r, name) == Values(h, name) + [v]
    ensures forall other :: other != name ==> Values(r, other) == Values(h, other)
    ensures r.Keys == h.Keys + {name}
  {
    h[name := Values(h, name) + [v]]
  }

  /** The header names that `pairs` uses. */
  function NamesOf(pairs: seq<(string, string)>): set<string> {
    set i | 0 <= i < |pairs| :: pairs[i].0
  }

  /** `headers.extend(pairs)`: every (name, value) pair added, in order. The
      names present afterwards are the old ones and those of the pairs. */
  function Extended(h: Headers, pairs: seq<(string, string)>): (r: Headers)
    ensures r.Keys == h.Keys + NamesOf(pairs)
    decreases |pairs|
  {
    if pairs == [] then h
    else
      var r := Extended(Added(h, pairs[0].0, Text(pairs[0].1)), pairs[1..]);
      assert NamesOf(pairs) == {pairs[0].0} + NamesOf(pairs[1..]) by {
        forall n | n in NamesOf(pairs) ensures n in {pairs[0].0} + NamesOf(pairs[1..]) {
          var i :| 0 <= i < |pairs| && pairs[i].0 == n;
          if i > 0 { assert pairs[1..][i - 1].0 == n; }
        }
        forall n | n in NamesOf(pairs[1..]) ensures n in NamesOf(pairs) {
          var i :| 0 <= i < |pairs| - 1 && pairs[1..][i].0 == n;
          assert pairs[i + 1].0 == n;
        }
      }
      r
  }

  /** The values that `pairs` carries under `name`, in order. */
  function ValuesNamed(pairs: seq<(string, string)>, name: string): seq<HeaderValue>
    decreases |pairs|
  {
    if pairs == [] then []
    else (if pairs[0].0 == name then [Text(pairs[0].1)] else []) + ValuesNamed(pairs[1..], name)
  }

  /** Extending appends, under each name, exactly the values the pairs give for it. */
  lemma {:induction false} ExtendedAppends(h: Headers, pairs: seq<(string, string)>, name: string)
    ensures Values(Extended(h, pairs), name) == Values(h, name) + ValuesNamed(pairs, name)
    decreases |pairs|
  {
    if pairs != [] {
      var h' := Added(h, pairs[0].0, Text(pairs[0].1));
      var head := if pairs[0].0 == name then [Text(pairs[0].1)] else [];
      assert Values(h', name) == Values(h, name) + head by {
        if pairs[0].0 != name {
          assert Values(h, name) + [] == Values(h, name);
        }
      }
      calc {
        Values(Extended(h, pairs), name);
        Values(Extended(h', pairs[1..]), name);
        { ExtendedAppends(h', pairs[1..], name); }
        (Values(h, name) + head) + ValuesNamed(pairs[1..], name);
        Values(h, name) + (head + ValuesNamed(pairs[1..], name));
        Values(h, name) + ValuesNamed(pairs, name);
      }
    }
  }

  /** A name that none of the pairs uses keeps its values. */
  lemma {:induction false} ExtendedKeepsOthers(h: Headers, pairs: seq<(string, string)>, name: string)
    requires forall i :: 0 <= i < |pairs| ==> pairs[i].0 != name
    ensures Values(Extended(h, pairs), name) == Values(h, name)
    decreases |pairs|
  {
    if pairs != [] {
      ExtendedKeepsOthers(Added(h, pairs[0].0, Text(pairs[0].1)), pairs[1..], name);
    }
  }

  /** The header list a freshly `jsonify`-ed response carries. */
  function JsonHeaders(): Headers {
    map["Content-Type" := [Text("application/json")]]
  }

  /** A Flask response object, mutated in place by the pagination callbacks and
      the error handlers. */
  class Response {
    var body: Body
    var status: int
    var headers: Headers

    /** `jsonify(body)`: status 200 and a JSON content type. */
    constructor Jsonify(b: Body)
      ensures body == b && status == 200 && headers == JsonHeaders()
    {
      body := b;
      status := 200;
      headers := JsonHeaders();
    }

    function State(): ResponseState
      reads this
    {
      ResponseState(body, status, headers)
    }

    /** `response.headers[name] = v`: `name` now has the single value `v`. */
    method SetHeader(name: string, v: HeaderValue)
      modifies this`headers
      ensures headers == old(headers)[name := [v]]
    {
      headers := headers[name := [v]];
    }

    /** `response.headers.extend(pairs)`. */
    method Extend(pairs: seq<(string, string)>)
      modifies this`headers
      ensures headers == Extended(old(headers), pairs)
    {
      headers := Extended(headers, pairs);
    }
  }
}
