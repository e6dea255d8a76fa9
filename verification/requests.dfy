/**
 * The shapes a registry operation works on: the caller's parameter bag, header
 * maps and the request descriptor handed to the transport, with the two
 * library steps every operation uses (the required-parameter check and the
 * right-biased header merge).
 */
module Requests {

  /** A parameter or header value as callers pass it: a JSON scalar or a list of strings. */
  datatype Value = Str(s: string) | Bool(b: bool) | Num(n: int) | StrList(items: seq<string>)

  type Headers = map<string, Value>

  /**
   * An operation's parameter bag: the named fields the caller set, and the
   * caller's `headers` override (empty when not given).
   */
  datatype Params = Params(fields: map<string, Value>, headers: Headers)

  /** The only error the client raises itself. */
  datatype ValidationError = MissingRequiredParameters(names: seq<string>)

  datatype Method = GET | POST | PUT | PATCH | DELETE

  /** What an operation sends as its JSON body. */
  datatype Body = NoBody | Object(members: map<string, Value>) | Raw(value: Value)

  /** A piece of a URL template: literal text, or a `{name}` placeholder. */
  datatype Segment = Text(text: string) | Param(name: string)

  /**
   * A URL template as the operations write it; the transport fills each
   * placeholder from the descriptor's `path` map.
   */
  type Template = seq<Segment>

  /** The template as a string, placeholders written `{name}`. */
  function Render(t: Template): string
  {
    if t == [] then ""
    else (match t[0] case Text(s) => s case Param(n) => "{" + n + "}") + Render(t[1..])
  }

  /** `url` contains the text `{key}`. */
  predicate HasPlaceholder(url: string, key: string)
  {
    exists i, j :: 0 <= i <= j <= |url| && url[i..j] == "{" + key + "}"
  }

  /** A placeholder segment shows up as `{name}` in the rendered string. */
  lemma {:induction false} RenderedPlaceholder(t: Template, key: string)
    requires Param(key) in t
    ensures HasPlaceholder(Render(t), key)
  {
    var head := match t[0] case Text(s) => s case Param(n) => "{" + n + "}";
    var rest := Render(t[1..]);
    var w := "{" + key + "}";
    assert Render(t) == head + rest;
    if t[0] == Param(key) {
      assert head == w;
      assert Render(t)[0..|w|] == w;
    } else {
      RenderedPlaceholder(t[1..], key);
      var i, j :| 0 <= i <= j <= |rest| && rest[i..j] == w;
      SliceAfterPrefix(head, rest, i, j);
    }
  }

  /** A slice of `b` reappears, shifted by `|a|`, in `a + b`. */
  lemma SliceAfterPrefix(a: string, b: string, i: nat, j: nat)
    requires i <= j <= |b|
    ensures (a + b)[|a| + i..|a| + j] == b[i..j]
  {
  }

  /**
   * What an operation hands to `createRequest`: the service URL and headers
   * of the default options, the URL template (placeholders unsubstituted),
   * the verb, the path and query maps and the body.
   */
  datatype Descriptor = Descriptor(
    serviceUrl: string,
    url: Template,
    verb: Method,
    path: map<string, Value>,
    qs: map<string, Value>,
    body: Body,
    headers: Headers)

  /** One routing entry: the parameter `param` travels under the wire name `wire`. */
  datatype Route = Route(param: string, wire: string)

  /** The required names, in their listed order, that the bag does not hold. */
  function Missing(required: seq<string>, fields: map<string, Value>): (r: seq<string>)
    ensures forall n :: n in r <==> n in required && n !in fields
    ensures r == [] <==> forall n :: n in required ==> n in fields
    ensures |r| <= |required|
  {
    if required == [] then []
    else (if required[0] in fields then [] else [required[0]]) + Missing(required[1..], fields)
  }

  /** `idx` lists strictly increasing positions of `s` holding the elements of `r`, in order. */
  predicate Picks(idx: seq<int>, r: seq<string>, s: seq<string>)
  {
    && |idx| == |r|
    && (forall k :: 0 <= k < |r| ==> 0 <= idx[k] < |s| && s[idx[k]] == r[k])
    && (forall k, l :: 0 <= k < l < |r| ==> idx[k] < idx[l])
  }

  /** `r` picks elements of `s` at strictly increasing positions: same order, no repeats. */
  ghost predicate Subsequence(r: seq<string>, s: seq<string>)
  {
    exists idx :: Picks(idx, r, s)
  }

  /** The missing names are reported in the order the required list gives them, each once per listing. */
  lemma {:induction false} MissingInListedOrder(required: seq<string>, fields: map<string, Value>)
    ensures Subsequence(Missing(required, fields), required)
  {
    if required == [] {
      assert Picks([], Missing(required, fields), required);
    } else {
      var x, rest := required[0], required[1..];
      assert required == [x] + rest;
      MissingInListedOrder(rest, fields);
      if x in fields {
        assert Missing(required, fields) == Missing(rest, fields);
        SubsequenceUnderHead(Missing(rest, fields), rest, x);
      } else {
        assert Missing(required, fields) == [x] + Missing(rest, fields);
        SubsequenceWithHead(Missing(rest, fields), rest, x);
      }
    }
  }

  /** Putting `x` in front of `s` keeps `r` a subsequence of it. */
  lemma SubsequenceUnderHead(r: seq<string>, s: seq<string>, x: string)
    requires Subsequence(r, s)
    ensures Subsequence(r, [x] + s)
  {
    var idx :| Picks(idx, r, s);
    var shifted := seq(|idx|, k requires 0 <= k < |idx| => idx[k] + 1);
    assert Picks(shifted, r, [x] + s);
  }

  /** Putting `x` in front of both keeps `[x] + r` a subsequence of `[x] + s`. */
  lemma SubsequenceWithHead(r: seq<string>, s: seq<string>, x: string)
    requires Subsequence(r, s)
    ensures Subsequence([x] + r, [x] + s)
  {
    var idx :| Picks(idx, r, s);
    var withHead := [0] + seq(|idx|, k requires 0 <= k < |idx| => idx[k] + 1);
    var u, t := [x] + r, [x] + s;
    assert forall k :: 0 < k < |u| ==> withHead[k] == idx[k - 1] + 1 && u[k] == r[k - 1];
    assert Picks(withHead, u, t);
  }

  /**
   * Right-biased union (the `extend` library call on flat header objects):
   * every entry of `over` wins, entries of `base` survive where `over` is silent.
   */
  function Extend(base: Headers, over: Headers): (r: Headers)
    ensures r.Keys == base.Keys + over.Keys
    ensures forall k :: k in over ==> r[k] == over[k]
    ensures forall k :: k in base && k !in over ==> r[k] == base[k]
  {
    base + over
  }

  /** No wire name is used twice. */
  predicate DistinctWires(routes: seq<Route>) {
    forall i, j :: 0 <= i < j < |routes| ==> routes[i].wire != routes[j].wire
  }

  /**
   * The object literal an operation builds for one location: each route's wire
   * name bound to its parameter's value. A parameter the caller left out is
   * `undefined` there, which serialization drops, so it gives no entry.
   */
  function Place(routes: seq<Route>, fields: map<string, Value>): (r: map<string, Value>)
    ensures forall i :: 0 <= i < |routes| && routes[i].param in fields ==> routes[i].wire in r
    ensures forall w :: w in r ==>
      exists i :: 0 <= i < |routes| && routes[i].wire == w && routes[i].param in fields
    ensures DistinctWires(routes) ==>
      forall i :: 0 <= i < |routes| && routes[i].param in fields ==> r[routes[i].wire] == fields[routes[i].param]
  {
    if routes == [] then map[]
    else
      var init := routes[..|routes| - 1];
      var last := routes[|routes| - 1];
      assert forall i :: 0 <= i < |init| ==> init[i] == routes[i];
      var r0 := Place(init, fields);
      if last.param in fields then r0[last.wire := fields[last.param]] else r0
  }
}
