/** `getDbFirebase` (src/actions/firebase.action.ts): one request to the
    hosted database's REST interface. The database itself lies outside the
    application; it is modelled here as a tree of JSON values served by the
    REST semantics the actions rely on (read, shallow read, push, merge,
    replace, delete). */
module Firebase {
  import opened Text
  import opened Json

  datatype Method = GET | HEAD | POST | PATCH | PUT | DELETE

  /** The query part of the URL: empty for an empty query, "?" and the query otherwise. */
  function QueryString(query: string): (r: string)
    ensures r == "" <==> query == ""
    ensures r != "" ==> r[0] == '?' && r[1..] == query
  {
    if query == "" then "" else "?" + query
  }

  /** The REST URL of a location: the database address, the path, ".json",
      then the query. */
  function Url(db: string, path: string, query: string): string {
    db + "/" + path + ".json" + QueryString(query)
  }

  datatype Options = Options(verb: Method, contentType: string, body: Option<Json>)

  /** The request options: every request declares a JSON content type, and
      the payload travels as the body unless the method is GET or HEAD or
      the payload is null. */
  function RequestOptions(m: Method, payload: Json): (o: Options)
    ensures o.verb == m && o.contentType == "application/json"
    ensures o.body.Some? <==> m != GET && m != HEAD && payload != JNull
    ensures o.body.Some? ==> o.body.value == payload
  {
    var o := Options(m, "application/json", None);
    if m != GET && m != HEAD && payload != JNull then o.(body := Some(payload)) else o
  }

  datatype Request = Request(url: string, options: Options)

  /** The key the database gives the `n`-th pushed child. */
  function PushKey(n: nat): string {
    "-N" + NatToString(n)
  }

  /** What the database does with one successful request: its new tree, its
      reply and its push counter. */
  datatype Outcome = Outcome(root: Json, reply: Json, pushed: nat)

  /** The database's REST semantics at the location `p`. A HEAD reply has
      no body, so reading it as JSON fails and the caller sees null; a write
      without a body (or a merge whose body is not an object) is refused,
      which the caller also sees as null. */
  function Serve(root: Json, pushed: nat, p: seq<string>, query: string, m: Method, payload: Json): (o: Outcome)
    ensures m == GET || m == HEAD ==> o.root == root && o.pushed == pushed
    ensures m == GET && query != "shallow=true" ==> o.reply == Get(root, p)
    ensures m == GET && query == "shallow=true" && Get(root, p).JObj? ==>
      o.reply.JObj? && o.reply.fields.Keys == Get(root, p).fields.Keys
    ensures m == HEAD ==> o.reply == JNull
    ensures m == POST && payload != JNull ==>
      o.pushed == pushed + 1 && o.reply == JObj(map["name" := JStr(PushKey(pushed))])
      && Get(o.root, p + [PushKey(pushed)]) == payload
    ensures m == PUT && payload != JNull ==> Get(o.root, p) == payload && o.reply == payload
    ensures m == DELETE ==> Get(o.root, p) == JNull && o.reply == JNull
    ensures m == PATCH && payload.JObj? ==>
      o.root == Patch(root, p, payload.fields) && o.reply == payload
    ensures m != POST ==> o.pushed == pushed
    ensures RequestOptions(m, payload).body.None? && m != GET && m != DELETE ==>
      o.root == root && o.reply == JNull
  {
    match m
    case GET => Outcome(root, if query == "shallow=true" then Shallow(Get(root, p)) else Get(root, p), pushed)
    case HEAD => Outcome(root, JNull, pushed)
    case POST =>
      if payload == JNull then Outcome(root, JNull, pushed)
      else
        var key := PushKey(pushed);
        GetAppend(SetAt(root, p + [key], payload), p, [key]);
        Outcome(SetAt(root, p + [key], payload), JObj(map["name" := JStr(key)]), pushed + 1)
    case PATCH =>
      if payload.JObj? then Outcome(Patch(root, p, payload.fields), payload, pushed)
      else Outcome(root, JNull, pushed)
    case PUT =>
      if payload == JNull then Outcome(root, JNull, pushed) else Outcome(SetAt(root, p, payload), payload, pushed)
    case DELETE => Outcome(SetAt(root, p, JNull), JNull, pushed)
  }

  /** The hosted database as the server actions reach it: the address from
      the environment (`DB_ADDRESS`), whether it answers successfully, its
      tree, its push counter and the requests sent to it. */
  class Database {
    const address: Option<string>
    const reachable: bool
    var root: Json
    var pushed: nat
    var sent: seq<Request>

    constructor(address: Option<string>, reachable: bool, root: Json)
      ensures this.address == address && this.reachable == reachable
      ensures this.root == root && pushed == 0 && sent == []
    {
      this.address := address;
      this.reachable := reachable;
      this.root := root;
      pushed := 0;
      sent := [];
    }

    /** The database is configured (a truthy address) and answers
        successfully. */
    predicate Answers() {
      Truthy(address) && reachable
    }

    /** The requests one call sends: none when the address is unset or
        empty (`!db` throws before the fetch), else one. */
    function RequestsFor(path: string, query: string, m: Method, payload: Json): (rs: seq<Request>)
      ensures |rs| == (if Truthy(address) then 1 else 0)
      ensures rs != [] ==> rs[0].options == RequestOptions(m, payload)
    {
      if !Truthy(address) then [] else [Request(Url(address.value, path, query), RequestOptions(m, payload))]
    }

    /** `getDbFirebase(path, query, method, payload)`: without a truthy address
        nothing is sent and the result is null; otherwise one request goes
        out, a failed response yields null and leaves the tree alone, and a
        successful one is served at the path's segments. */
    method GetDbFirebase(path: string, query: string, m: Method, payload: Json) returns (r: Json)
      modifies this
      ensures sent == old(sent) + RequestsFor(path, query, m, payload)
      ensures !Answers() ==> r == JNull && root == old(root) && pushed == old(pushed)
      ensures Answers() ==>
        (var o := Serve(old(root), old(pushed), Split(path), query, m, payload);
         root == o.root && pushed == o.pushed && r == o.reply)
    {
      if !Truthy(address) {
        return JNull;
      }
      var options := RequestOptions(m, payload);
      sent := sent + [Request(Url(address.value, path, query), options)];
      if !reachable {
        return JNull;
      }
      var o := Serve(root, pushed, Split(path), query, m, payload);
      root := o.root;
      pushed := o.pushed;
      r := o.reply;
    }
  }
}
