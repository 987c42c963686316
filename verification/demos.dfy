/**
 * The `/api/demos` route: a module-level, in-memory array of Demo records
 * and the four handlers that read and change it (GET lists or filters,
 * POST appends, PUT overwrites the first record with the query's id,
 * DELETE removes every record with the query's id).
 *
 * Requests arrive already parsed: the query parameter is an Option (absent
 * is None), the JSON body a DemoBody. Each handler returns the HTTP status
 * and the JSON reply.
 */
module DemosRoute {
  import opened Wrappers
  import opened Ascii
  import opened Http

  /** One stored demo configuration. */
  datatype Demo = Demo(
    id: string,
    clientName: string,
    projectId: string,
    environment: string,
    brandColor: string,
    backgroundPath: string)

  /** The JSON body of a POST or PUT; only `backgroundPath` may be left out. */
  datatype DemoBody = DemoBody(
    clientName: string,
    projectId: string,
    environment: string,
    brandColor: string,
    backgroundPath: Option<string>)

  /** The JSON payload of a reply. */
  datatype Reply = DemoList(demos: seq<Demo>) | OneDemo(demo: Demo) | Success | Error(message: string)

  const ID_REQUIRED := "ID is required"
  const DEMO_NOT_FOUND := "Demo not found"

  /** JavaScript's `value || fallback` for an optional string: absent and '' both fall back. */
  function OrElse(value: Option<string>, fallback: string): (r: string)
    ensures value.Some? && value.value != "" ==> r == value.value
    ensures value.None? || value.value == "" ==> r == fallback
    ensures r == "" ==> fallback == ""
  {
    if value.Some? && value.value != "" then value.value else fallback
  }

  /** The two record tests the route filters by. */
  datatype Criterion =
    | ClientNameIs(query: string)  // GET: same client name, ignoring case
    | IdIsNot(id: string)          // DELETE: keep the records with another id

  predicate Keeps(c: Criterion, d: Demo)
  {
    match c
    case ClientNameIs(q) => ToLower(d.clientName) == ToLower(q)
    case IdIsNot(id) => d.id != id
  }

  /** `Array.prototype.filter`: the records that satisfy the criterion, in store order. */
  function Filter(s: seq<Demo>, c: Criterion): (r: seq<Demo>)
    ensures |r| <= |s|
    ensures forall i :: 0 <= i < |r| ==> Keeps(c, r[i])
  {
    if s == [] then []
    else if Keeps(c, s[0]) then [s[0]] + Filter(s[1..], c)
    else Filter(s[1..], c)
  }

  /** A record is in the filtered list exactly when it is stored and satisfies the criterion. */
  lemma {:induction false} FilterMember(s: seq<Demo>, c: Criterion, d: Demo)
    ensures d in Filter(s, c) <==> d in s && Keeps(c, d)
  {
    if s != [] {
      FilterMember(s[1..], c, d);
    }
  }

  /**
   * Filtering a concatenation filters each part and keeps them in order.
   * With `Filter([d], c)` this pins the result down: the survivors keep
   * their relative order.
   */
  lemma {:induction false} FilterAppend(a: seq<Demo>, b: seq<Demo>, c: Criterion)
    ensures Filter(a + b, c) == Filter(a, c) + Filter(b, c)
  {
    if a == [] {
      assert a + b == b;
    } else {
      assert (a + b)[1..] == a[1..] + b;
      FilterAppend(a[1..], b, c);
    }
  }

  /**
   * Filtering keeps the length exactly when every record satisfies the
   * criterion, and then it returns the store unchanged.
   */
  lemma {:induction false} FilterKeepsAll(s: seq<Demo>, c: Criterion)
    ensures |Filter(s, c)| == |s| <==> forall i :: 0 <= i < |s| ==> Keeps(c, s[i])
    ensures (forall i :: 0 <= i < |s| ==> Keeps(c, s[i])) ==> Filter(s, c) == s
  {
    if s != [] {
      FilterKeepsAll(s[1..], c);
      assert forall i :: 1 <= i < |s| ==> s[1..][i - 1] == s[i];
    }
  }

  /** Client names that lower-case alike select the same records. */
  lemma {:induction false} FilterIgnoresCase(s: seq<Demo>, a: string, b: string)
    requires ToLower(a) == ToLower(b)
    ensures Filter(s, ClientNameIs(a)) == Filter(s, ClientNameIs(b))
  {
    if s != [] {
      FilterIgnoresCase(s[1..], a, b);
    }
  }

  /** What GET returns: the whole store, or the records of one client when a non-empty name is given. */
  function Listing(s: seq<Demo>, clientName: Option<string>): (r: seq<Demo>)
    ensures |r| <= |s|
    ensures clientName.None? || clientName == Some("") ==> r == s
    ensures clientName.Some? && clientName.value != "" ==>
      forall i :: 0 <= i < |r| ==> ToLower(r[i].clientName) == ToLower(clientName.value)
  {
    if clientName.Some? && clientName.value != "" then Filter(s, ClientNameIs(clientName.value)) else s
  }

  /** GET's answer for a query name: every record of that client (in any letter case) and nothing else. */
  lemma ListingByName(s: seq<Demo>, q: string, d: Demo)
    requires q != ""
    ensures d in Listing(s, Some(q)) <==> d in s && ToLower(d.clientName) == ToLower(q)
  {
    FilterMember(s, ClientNameIs(q), d);
  }

  /** "Acme" and "acme" give the same GET answer. */
  lemma ListingIgnoresCase(s: seq<Demo>, a: string, b: string)
    requires ToLower(a) == ToLower(b)
    ensures Listing(s, Some(a)) == Listing(s, Some(b))
  {
    ToLowerAt(a);
    ToLowerAt(b);
    FilterIgnoresCase(s, a, b);
  }

  /** `Array.prototype.findIndex` on the id: the first position holding that id, if any. */
  function FirstIndex(s: seq<Demo>, id: string): (r: Option<nat>)
    ensures r.Some? ==> r.value < |s| && s[r.value].id == id
    ensures r.Some? ==> forall j :: 0 <= j < r.value ==> s[j].id != id
    ensures r.None? <==> forall j :: 0 <= j < |s| ==> s[j].id != id
  {
    if s == [] then None
    else if s[0].id == id then Some(0)
    else match FirstIndex(s[1..], id)
      case None => None
      case Some(k) => Some(k + 1)
  }

  /** The record PUT looks for: a missing `id` query parameter (null) never equals a stored id. */
  function FindTarget(s: seq<Demo>, id: Option<string>): (r: Option<nat>)
    ensures r.Some? ==> id.Some? && r.value < |s| && s[r.value].id == id.value
    ensures r.Some? ==> forall j :: 0 <= j < r.value ==> s[j].id != id.value
    ensures r.None? <==> id.None? || forall j :: 0 <= j < |s| ==> s[j].id != id.value
  {
    if id.Some? then FirstIndex(s, id.value) else None
  }

  /** The in-memory store the handlers share. */
  class DemoStore {
    var demos: seq<Demo>

    /** The process starts with an empty store. */
    constructor ()
      ensures demos == []
    {
      demos := [];
    }

    /** GET: list every demo, or those whose client name matches the query ignoring case. */
    method Get(clientName: Option<string>) returns (status: nat, reply: Reply)
      ensures status == OK
      ensures reply.DemoList? && reply.demos == Listing(demos, clientName)
      ensures clientName.None? || clientName == Some("") ==> reply.demos == demos
      ensures forall i :: 0 <= i < |reply.demos| ==> reply.demos[i] in demos
    {
      var found := Listing(demos, clientName);
      forall i | 0 <= i < |found|
        ensures found[i] in demos
      {
        if clientName.Some? && clientName.value != "" {
          FilterMember(demos, ClientNameIs(clientName.value), found[i]);
        }
      }
      return OK, DemoList(found);
    }

    /** POST: append one new record with the given id; a missing or empty background path becomes ''. */
    method Post(body: DemoBody, freshId: string) returns (status: nat, reply: Reply)
      modifies this
      ensures status == OK
      ensures |demos| == |old(demos)| + 1 && demos[..|old(demos)|] == old(demos)
      ensures reply == OneDemo(demos[|demos| - 1])
      ensures reply.demo.id == freshId
      ensures reply.demo.clientName == body.clientName && reply.demo.projectId == body.projectId
      ensures reply.demo.environment == body.environment && reply.demo.brandColor == body.brandColor
      ensures reply.demo.backgroundPath == if body.backgroundPath.Some? then body.backgroundPath.value else ""
    {
      var created := Demo(freshId, body.clientName, body.projectId, body.environment, body.brandColor,
                          OrElse(body.backgroundPath, ""));
      demos := demos + [created];
      return OK, OneDemo(created);
    }

    /**
     * PUT: overwrite the first record whose id equals the query's id. The
     * record keeps its id and, when the body gives none or '', its background
     * path; nothing else in the store changes. No match is a 404.
     */
    method Put(id: Option<string>, body: DemoBody) returns (status: nat, reply: Reply)
      modifies this
      ensures |demos| == |old(demos)|
      ensures FindTarget(old(demos), id).None? ==>
        status == NOT_FOUND && reply == Error(DEMO_NOT_FOUND) && demos == old(demos)
      ensures FindTarget(old(demos), id).Some? ==>
        var k := FindTarget(old(demos), id).value;
        && status == OK
        && (forall j :: 0 <= j < |demos| && j != k ==> demos[j] == old(demos)[j])
        && demos[k].id == old(demos)[k].id
        && demos[k].clientName == body.clientName
        && demos[k].projectId == body.projectId
        && demos[k].environment == body.environment
        && demos[k].brandColor == body.brandColor
        && demos[k].backgroundPath == OrElse(body.backgroundPath, old(demos)[k].backgroundPath)
        && reply == OneDemo(demos[k])
    {
      var index := FindTarget(demos, id);
      if index.None? {
        return NOT_FOUND, Error(DEMO_NOT_FOUND);
      }
      var k := index.value;
      var current := demos[k];
      var revised := current.(
        clientName := body.clientName,
        projectId := body.projectId,
        environment := body.environment,
        brandColor := body.brandColor,
        backgroundPath := OrElse(body.backgroundPath, current.backgroundPath));
      demos := demos[k := revised];
      return OK, OneDemo(revised);
    }

    /**
     * DELETE: a missing or empty id is a 400. Otherwise every record with
     * that id is removed, the others keep their order, and the reply is 404
     * exactly when nothing was removed.
     */
    method Delete(id: Option<string>) returns (status: nat, reply: Reply)
      modifies this
      ensures status == BAD_REQUEST <==> id.None? || id == Some("")
      ensures status == BAD_REQUEST ==> reply == Error(ID_REQUIRED) && demos == old(demos)
      ensures id.Some? && id.value != "" ==>
        && demos == Filter(old(demos), IdIsNot(id.value))
        && (forall i :: 0 <= i < |demos| ==> demos[i].id != id.value)
        && (status == NOT_FOUND <==> forall j :: 0 <= j < |old(demos)| ==> old(demos)[j].id != id.value)
      ensures status == NOT_FOUND ==> reply == Error(DEMO_NOT_FOUND) && demos == old(demos)
      ensures status == OK ==> reply == Success && |demos| < |old(demos)|
      ensures status == OK || status == BAD_REQUEST || status == NOT_FOUND
    {
      if id.None? || id.value == "" {
        return BAD_REQUEST, Error(ID_REQUIRED);
      }
      var initialLength := |demos|;
      FilterKeepsAll(demos, IdIsNot(id.value));
      demos := Filter(demos, IdIsNot(id.value));
      if |demos| == initialLength {
        return NOT_FOUND, Error(DEMO_NOT_FOUND);
      }
      return OK, Success;
    }
  }

  /**
   * The create / look up / delete / look up sequence a client performs,
   * carried out against the contracts above alone.
   */
  method AcmeScenario(freshId: string)
    requires freshId != ""
  {
    var store := new DemoStore();
    var status, created := store.Post(DemoBody("Acme", "p1", "production", "#112233", Some("/logos/a.png")), freshId);
    assert store.demos == [created.demo];
    var listed;
    status, listed := store.Get(Some("acme"));
    assert listed == DemoList([created.demo]);
    assert store.demos[0].id == freshId;
    var deleted;
    status, deleted := store.Delete(Some(freshId));
    assert status == OK && store.demos == [];
    status, listed := store.Get(Some("Acme"));
    assert listed == DemoList([]);
  }
}
