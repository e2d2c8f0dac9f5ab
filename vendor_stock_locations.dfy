/** The vendor stock-location routes: `GET /vendor/stock-locations` lists the
    caller's stock locations by querying through the seller link and
    unwrapping each row; `POST /vendor/stock-locations` looks up the seller,
    runs the create workflow, links the new location to the seller, reads it
    back and answers 201.

    Each external collaborator (seller lookup, create workflow, link
    registry, graph query) is a step method that records its call in a trace
    and changes only the store it owns. What a collaborator returns or throws
    is not visible here, so it is a parameter of the handler; only the
    seller lookup is modelled, as a read-only map from actor to seller. */
module VendorStockLocations {
  import opened Wrappers

  // ---------------------------------------------------------------------
  // Values crossing the HTTP and graph boundaries

  /** A JSON value, as request bodies, graph rows and responses carry them. */
  datatype Value =
    | Null
    | Bool(b: bool)
    | Num(n: int)
    | Str(s: string)
    | Arr(items: seq<Value>)
    | Obj(members: map<string, Value>)

  /** A row returned by the graph layer: an object keyed by member name. */
  type Row = map<string, Value>

  /** Why an external step failed; the handlers propagate it unchanged. */
  datatype ErrorKind = NotFound | Conflict | Unavailable | Invalid | Unexpected
  datatype Error = Error(kind: ErrorKind, message: string)

  /** The filter of a graph query: the POST read pins one id, the GET list
      passes the request's filterable fields through. */
  datatype Filters = IdIs(id: string) | Filterable(filters: map<string, Value>)

  /** A graph query as the handlers issue it. */
  datatype GraphQuery = GraphQuery(entity: string, fields: seq<string>, filters: Filters, throwIfKeyNotFound: bool)

  /** An association between a seller and a stock location in the link registry. */
  datatype Link = Link(sellerId: string, stockLocationId: string)

  /** One call to an external collaborator. */
  datatype Call =
    | LookupSeller(actorId: string)
    | CreateStockLocations(locations: seq<Value>)
    | WriteLink(link: Link)
    | QueryGraph(query: GraphQuery)

  /** The body of a response: one record under `stock_location`, or a list
      under `stock_locations`. An absent record (`undefined`) is `None`. */
  datatype Payload = One(record: Option<Value>) | Many(records: seq<Option<Value>>)

  /** An HTTP response: its status and the single key of its JSON body. */
  datatype Response = Response(status: int, key: string, payload: Payload)

  const StockLocationEntity: string := "stock_location"
  const SellerPrefix: string := "seller."

  // ---------------------------------------------------------------------
  // GET: field rewrite and row unwrap

  /** The requested fields rewritten to be reached through the seller link:
      each field, in order, behind the `seller.` prefix. An empty list stays
      empty and an empty field becomes `seller.`; neither is rejected. */
  function SellerScopedFields(fields: seq<string>): (r: seq<string>)
    ensures |r| == |fields|
    ensures forall i :: 0 <= i < |r| ==>
      SellerPrefix <= r[i] && r[i][|SellerPrefix|..] == fields[i]
  {
    seq(|fields|, i requires 0 <= i < |fields| => SellerPrefix + fields[i])
  }

  /** A field with a leading `seller.` removed; other fields are unchanged. */
  function StripSellerPrefix(field: string): string {
    if SellerPrefix <= field then field[|SellerPrefix|..] else field
  }

  /** `StripSellerPrefix` applied to every field. */
  function UnscopedFields(fields: seq<string>): (r: seq<string>)
    ensures |r| == |fields|
  {
    seq(|fields|, i requires 0 <= i < |fields| => StripSellerPrefix(fields[i]))
  }

  /** Stripping the prefix from the rewritten fields gives back the request. */
  lemma UnscopeAfterScope(fields: seq<string>)
    ensures UnscopedFields(SellerScopedFields(fields)) == fields
  {
  }

  /** Different requests never rewrite to the same query fields. */
  lemma SellerScopedFieldsInjective(a: seq<string>, b: seq<string>)
    requires SellerScopedFields(a) == SellerScopedFields(b)
    ensures a == b
  {
    UnscopeAfterScope(a);
    UnscopeAfterScope(b);
  }

  /** The member `key` of a row, `None` where the row has no such member. */
  function Member(row: Row, key: string): (r: Option<Value>)
    ensures r.Some? <==> key in row
    ensures r.Some? ==> r.value == row[key]
  {
    if key in row then Some(row[key]) else None
  }

  /** Each row replaced by its `stock_location` member, one entry per row in
      row order. */
  function UnwrapRows(rows: seq<Row>): (r: seq<Option<Value>>)
    ensures |r| == |rows|
  {
    seq(|rows|, i requires 0 <= i < |rows| => Member(rows[i], StockLocationEntity))
  }

  /** Rows that each wrap a location under `stock_location`. */
  function WrapLocations(locations: seq<Value>): (rows: seq<Row>)
    ensures |rows| == |locations|
  {
    seq(|locations|, i requires 0 <= i < |locations| => map[StockLocationEntity := locations[i]])
  }

  /** Unwrapping rows that wrap locations yields those locations, in order. */
  lemma UnwrapAfterWrap(locations: seq<Value>)
    ensures forall i :: 0 <= i < |locations| ==>
      UnwrapRows(WrapLocations(locations))[i] == Some(locations[i])
  {
  }

  /** Unwrapping works row by row: the entries for a concatenation of rows are
      the entries for each part, in the same order. */
  lemma UnwrapRowsConcat(a: seq<Row>, b: seq<Row>)
    ensures UnwrapRows(a + b) == UnwrapRows(a) + UnwrapRows(b)
  {
  }

  /** The graph query the GET handler issues. */
  function ListQuery(fields: seq<string>, filters: map<string, Value>): GraphQuery {
    GraphQuery(StockLocationEntity, SellerScopedFields(fields), Filterable(filters), true)
  }

  /** The GET handler's answer to the rows the graph layer returned, or the
      graph error, unchanged. */
  function ListResponse(read: Result<seq<Row>, Error>): (r: Result<Response, Error>)
    ensures read.Err? ==> r == Err(read.error)
    ensures read.Ok? ==>
              && r.Ok? && r.value.status == 200 && r.value.key == "stock_locations"
              && r.value.payload.Many? && |r.value.payload.records| == |read.value|
              && forall i :: 0 <= i < |read.value| ==>
                   r.value.payload.records[i] == Member(read.value[i], StockLocationEntity)
  {
    match read
    case Err(e) => Err(e)
    case Ok(rows) => Ok(Response(200, "stock_locations", Many(UnwrapRows(rows))))
  }

  // ---------------------------------------------------------------------
  // POST: the step sequence as a specification

  /** What one POST run does: the external calls in order, the stock locations
      and links it adds, and its result. */
  datatype PostRun = PostRun(calls: seq<Call>, created: set<string>, linked: set<Link>, outcome: Result<Response, Error>)

  /** What the external steps of one POST return: the ids the create workflow
      reports (or its error), whether the link write succeeds, and the rows of
      the follow-up read (or its error). */
  datatype PostCollaborators = PostCollaborators(
    workflow: Result<seq<string>, Error>,
    linkWrite: Outcome<Error>,
    read: Result<seq<Value>, Error>)

  /** The error of the seller lookup when no seller is bound to the actor. */
  const SellerNotFound: Error := Error(NotFound, "seller not found")

  /** The error thrown when the workflow reports no location, so that
      `result[0].id` reads a member of `undefined`. */
  const MissingCreatedLocation: Error := Error(Unexpected, "result[0] is undefined")

  /** The query of the POST handler's follow-up read: the requested fields as
      they are (no `seller.` prefix), filtered on the new id. */
  function ReadBackQuery(fields: seq<string>, id: string): GraphQuery {
    GraphQuery(StockLocationEntity, fields, IdIs(id), true)
  }

  /** The first row, `None` when there is none (destructuring `[stockLocation]`). */
  function FirstRow(rows: seq<Value>): (r: Option<Value>)
    ensures r.Some? <==> |rows| > 0
    ensures r.Some? ==> r.value == rows[0]
  {
    if |rows| > 0 then Some(rows[0]) else None
  }

  /** The specification of the POST handler: seller lookup, then the create
      workflow on the body as the sole location, then the link between the
      seller and the first created id, then the read of that id, then 201.
      The first step that fails ends the run with its error. */
  function PostSpec(sellers: map<string, string>, actorId: string, body: Value,
                    fields: seq<string>, env: PostCollaborators): PostRun
  {
    var c0 := [LookupSeller(actorId)];
    if actorId !in sellers then PostRun(c0, {}, {}, Err(SellerNotFound))
    else
      var c1 := c0 + [CreateStockLocations([body])];
      match env.workflow
      case Err(e) => PostRun(c1, {}, {}, Err(e))
      case Ok(ids) =>
        var created := set id | id in ids;
        if |ids| == 0 then PostRun(c1, created, {}, Err(MissingCreatedLocation))
        else
          var link := Link(sellers[actorId], ids[0]);
          var c2 := c1 + [WriteLink(link)];
          match env.linkWrite
          case Fail(e) => PostRun(c2, created, {}, Err(e))
          case Pass =>
            var c3 := c2 + [QueryGraph(ReadBackQuery(fields, ids[0]))];
            match env.read
            case Err(e) => PostRun(c3, created, {link}, Err(e))
            case Ok(rows) =>
              PostRun(c3, created, {link}, Ok(Response(201, "stock_location", One(FirstRow(rows)))))
  }

  /** The position of each kind of call in the POST sequence. */
  function StepIndex(c: Call): nat {
    match c
    case LookupSeller(_) => 0
    case CreateStockLocations(_) => 1
    case WriteLink(_) => 2
    case QueryGraph(_) => 3
  }

  /** A POST run's calls follow the fixed step order, each step at most once:
      seller lookup of the actor, create workflow on the body as its only
      location, link write, read. */
  lemma PostStepOrder(sellers: map<string, string>, actorId: string, body: Value,
                      fields: seq<string>, env: PostCollaborators)
    ensures var run := PostSpec(sellers, actorId, body, fields, env);
      && 1 <= |run.calls| <= 4
      && (forall i :: 0 <= i < |run.calls| ==> StepIndex(run.calls[i]) == i)
      && run.calls[0] == LookupSeller(actorId)
      && (|run.calls| >= 2 ==> run.calls[1] == CreateStockLocations([body]))
  {
  }

  /** A POST run succeeds exactly when every step succeeds and the workflow
      reports at least one location. */
  lemma PostSucceedsIffEveryStepDoes(sellers: map<string, string>, actorId: string, body: Value,
                                     fields: seq<string>, env: PostCollaborators)
    ensures PostSpec(sellers, actorId, body, fields, env).outcome.Ok? <==>
      && actorId in sellers
      && env.workflow.Ok? && |env.workflow.value| > 0
      && env.linkWrite.Pass?
      && env.read.Ok?
  {
  }

  /** Without a seller bound to the actor, the run stops after the lookup:
      no workflow runs, nothing is created and no link is written. */
  lemma PostWithoutSeller(sellers: map<string, string>, actorId: string, body: Value,
                          fields: seq<string>, env: PostCollaborators)
    requires actorId !in sellers
    ensures PostSpec(sellers, actorId, body, fields, env)
         == PostRun([LookupSeller(actorId)], {}, {}, Err(SellerNotFound))
  {
  }

  /** When the create workflow fails, its error is the answer and no link is
      written and nothing is read. */
  lemma PostWorkflowFailure(sellers: map<string, string>, actorId: string, body: Value,
                            fields: seq<string>, env: PostCollaborators)
    requires actorId in sellers && env.workflow.Err?
    ensures var run := PostSpec(sellers, actorId, body, fields, env);
      && run.calls == [LookupSeller(actorId), CreateStockLocations([body])]
      && run.created == {} && run.linked == {}
      && run.outcome == Err(env.workflow.error)
  {
  }

  /** When the link write fails after the workflow succeeded, the locations
      exist but are linked to nobody, no read follows, and the link error is
      the answer: nothing is compensated. */
  lemma PostLinkFailure(sellers: map<string, string>, actorId: string, body: Value,
                        fields: seq<string>, env: PostCollaborators)
    requires actorId in sellers && env.workflow.Ok? && |env.workflow.value| > 0
    requires env.linkWrite.Fail?
    ensures var run := PostSpec(sellers, actorId, body, fields, env);
      && |run.calls| == 3
      && env.workflow.value[0] in run.created
      && run.linked == {}
      && run.outcome == Err(env.linkWrite.error)
  {
  }

  /** A link is written only after the workflow succeeded, and only the link
      between the resolved seller and the first created location. */
  lemma PostLinksOnlyAfterWorkflow(sellers: map<string, string>, actorId: string, body: Value,
                                   fields: seq<string>, env: PostCollaborators, i: nat)
    requires i < |PostSpec(sellers, actorId, body, fields, env).calls|
    requires PostSpec(sellers, actorId, body, fields, env).calls[i].WriteLink?
    ensures actorId in sellers && env.workflow.Ok? && |env.workflow.value| > 0
    ensures PostSpec(sellers, actorId, body, fields, env).calls[i].link
         == Link(sellers[actorId], env.workflow.value[0])
  {
  }

  /** The workflow gets the body as its only location; the id linked to the
      seller is the id the read filters on, and the read asks for the
      requested fields without the `seller.` prefix. */
  lemma PostIdFlow(sellers: map<string, string>, actorId: string, body: Value,
                   fields: seq<string>, env: PostCollaborators)
    requires |PostSpec(sellers, actorId, body, fields, env).calls| == 4
    ensures var run := PostSpec(sellers, actorId, body, fields, env);
      && actorId in sellers && env.workflow.Ok? && |env.workflow.value| > 0
      && run.calls[1] == CreateStockLocations([body])
      && run.calls[2] == WriteLink(Link(sellers[actorId], env.workflow.value[0]))
      && run.calls[3] == QueryGraph(GraphQuery(StockLocationEntity, fields, IdIs(env.workflow.value[0]), true))
      && run.linked == {Link(sellers[actorId], env.workflow.value[0])}
  {
  }

  /** A successful POST answers 201 with the first row read back under
      `stock_location`, after linking the new location to the seller. */
  lemma PostSuccessResponse(sellers: map<string, string>, actorId: string, body: Value,
                            fields: seq<string>, env: PostCollaborators)
    requires PostSpec(sellers, actorId, body, fields, env).outcome.Ok?
    ensures var run := PostSpec(sellers, actorId, body, fields, env);
      && env.read.Ok?
      && run.outcome.value == Response(201, "stock_location", One(FirstRow(env.read.value)))
      && env.workflow.Ok? && run.created == set id | id in env.workflow.value
      && run.linked == {Link(sellers[actorId], env.workflow.value[0])}
  {
  }

  /** The POST read and the GET list differ in how they ask for the same
      requested fields: the list goes through the seller link, the read does
      not, so for any non-empty request the two field lists differ. */
  lemma PostReadIsNotSellerScoped(fields: seq<string>, id: string, filters: map<string, Value>)
    requires |fields| > 0
    ensures ReadBackQuery(fields, id).fields == fields
    ensures ListQuery(fields, filters).fields == SellerScopedFields(fields)
    ensures ReadBackQuery(fields, id).fields != ListQuery(fields, filters).fields
  {
    assert |SellerScopedFields(fields)[0]| == |SellerPrefix| + |fields[0]|;
  }

  // ---------------------------------------------------------------------
  // The handlers over the collaborators' state

  /** The state the route handlers touch: the seller bound to each actor
      (read only), the stock locations, the seller links of the link
      registry, and the trace of external calls. */
  class StockLocationBackend {
    const sellers: map<string, string>
    var locations: set<string>
    var links: set<Link>
    var calls: seq<Call>

    constructor (sellers: map<string, string>, locations: set<string>, links: set<Link>)
      ensures this.sellers == sellers && this.locations == locations && this.links == links
      ensures calls == []
    {
      this.sellers := sellers;
      this.locations := locations;
      this.links := links;
      calls := [];
    }

    /** Seller lookup: the seller bound to the actor, or not found. */
    method FetchSeller(actorId: string) returns (r: Result<string, Error>)
      modifies this`calls
      ensures calls == old(calls) + [LookupSeller(actorId)]
      ensures r == if actorId in sellers then Ok(sellers[actorId]) else Err(SellerNotFound)
    {
      calls := calls + [LookupSeller(actorId)];
      if actorId in sellers {
        r := Ok(sellers[actorId]);
      } else {
        r := Err(SellerNotFound);
      }
    }

    /** The create workflow: on success the reported ids become stock locations. */
    method RunCreateWorkflow(input: seq<Value>, reported: Result<seq<string>, Error>)
      returns (r: Result<seq<string>, Error>)
      modifies this`calls, this`locations
      ensures calls == old(calls) + [CreateStockLocations(input)]
      ensures r == reported
      ensures locations == old(locations) + (if reported.Ok? then set id | id in reported.value else {})
    {
      calls := calls + [CreateStockLocations(input)];
      if reported.Ok? {
        locations := locations + set id | id in reported.value;
      }
      r := reported;
    }

    /** A link-registry write: on success the link is stored. */
    method CreateLink(link: Link, outcome: Outcome<Error>) returns (r: Outcome<Error>)
      modifies this`calls, this`links
      ensures calls == old(calls) + [WriteLink(link)]
      ensures r == outcome
      ensures links == old(links) + (if outcome.Pass? then {link} else {})
    {
      calls := calls + [WriteLink(link)];
      if outcome.Pass? {
        links := links + {link};
      }
      r := outcome;
    }

    /** A graph query: it changes nothing and answers what the graph layer does. */
    method Graph<R>(query: GraphQuery, answer: Result<seq<R>, Error>) returns (r: Result<seq<R>, Error>)
      modifies this`calls
      ensures calls == old(calls) + [QueryGraph(query)]
      ensures r == answer
    {
      calls := calls + [QueryGraph(query)];
      r := answer;
    }

    /** `POST /vendor/stock-locations`: each step runs only if the previous
        one succeeded; the first error is propagated unchanged. */
    method Post(actorId: string, body: Value, fields: seq<string>, env: PostCollaborators)
      returns (r: Result<Response, Error>)
      modifies this`calls, this`locations, this`links
      ensures var run := PostSpec(sellers, actorId, body, fields, env);
        && calls == old(calls) + run.calls
        && locations == old(locations) + run.created
        && links == old(links) + run.linked
        && r == run.outcome
    {
      var seller := FetchSeller(actorId);
      if seller.Err? {
        return Err(seller.error);
      }
      var result := RunCreateWorkflow([body], env.workflow);
      if result.Err? {
        return Err(result.error);
      }
      if |result.value| == 0 {
        return Err(MissingCreatedLocation);
      }
      var id := result.value[0];
      var linked := CreateLink(Link(seller.value, id), env.linkWrite);
      if linked.Fail? {
        return Err(linked.error);
      }
      var data := Graph(ReadBackQuery(fields, id), env.read);
      if data.Err? {
        return Err(data.error);
      }
      r := Ok(Response(201, "stock_location", One(FirstRow(data.value))));
    }

    /** `GET /vendor/stock-locations`: one graph query through the seller
        link, its rows unwrapped; nothing else changes. */
    method Get(fields: seq<string>, filters: map<string, Value>, answer: Result<seq<Row>, Error>)
      returns (r: Result<Response, Error>)
      modifies this`calls
      ensures calls == old(calls) + [QueryGraph(ListQuery(fields, filters))]
      ensures r == ListResponse(answer)
    {
      var data := Graph(ListQuery(fields, filters), answer);
      if data.Err? {
        return Err(data.error);
      }
      r := Ok(Response(200, "stock_locations", Many(UnwrapRows(data.value))));
    }
  }
}
