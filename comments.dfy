/** The comment API route (pages/api/comments.ts): a JSON file holding every
    comment, and a handler that reads the whole collection, performs one of
    create / list / update / delete, and writes the whole collection back.

    Timestamps are integers and "now" is a parameter; the outcome of
    `writeFileSync` is the parameter `writeOk` (a failed write is swallowed). */
module Comments {
  import opened Wrappers
  import Seqs
  import Auth
  import opened Text

  datatype Comment = Comment(id: int, postSlug: string, author: string, content: string, date: int)

  /** The backing file: absent, present but unreadable (text that does not
      parse, or a falsy JSON value such as `null`), or holding a collection. */
  datatype StoreFile = Missing | Unreadable | Holds(comments: seq<Comment>)

  /** `readComments()`: an absent or unreadable file reads as the empty
      collection (`JSON.parse(...) || []`, or the `catch`). */
  function Loaded(f: StoreFile): seq<Comment>
  {
    if f.Holds? then f.comments else []
  }

  /** The `id` query parameter of DELETE as `Number(id)` sees it: absent,
      the empty string, or a non-empty string whose conversion is an integer
      (`Some`) or is not (`None`: NaN or a fraction, which equals no id). */
  datatype QueryId = NoId | EmptyId | IdText(number: Option<int>)

  /** The JSON request body; PUT's `id` is compared with `===`, so only an
      integer id can match. */
  datatype Body = Body(postSlug: Option<string>, author: Option<string>, content: Option<string>, id: Option<int>)

  datatype Query = Query(postSlug: Option<string>, id: QueryId)

  datatype Request = Request(verb: string, query: Query, body: Body)

  datatype Response =
    | Created(comment: Comment)
    | Listed(comments: seq<Comment>)
    | Done(comment: Comment)
    | BadRequest(message: string)
    | Unauthorized(message: string)
    | NotFound(message: string)
    | MethodNotAllowed(allow: seq<string>, message: string)
  {
    /** The HTTP status code sent with the response. */
    function Status(): int
    {
      match this
      case Created(_) => 201
      case Listed(_) => 200
      case Done(_) => 200
      case BadRequest(_) => 400
      case Unauthorized(_) => 401
      case NotFound(_) => 404
      case MethodNotAllowed(_, _) => 405
    }
  }

  const CreateFieldsMessage := "Missing required fields: postSlug, author, and content are required."
  const SlugParamMessage := "postSlug query parameter is required."
  const UpdateFieldsMessage := "Missing required fields: id and new content are required."
  const IdParamMessage := "id query parameter is required."
  const NotFoundMessage := "Comment not found."
  const AllowedMethods := ["POST", "GET", "PUT", "DELETE"]

  /** JavaScript truthiness of an optional number: present and not 0. */
  predicate TruthyId(o: Option<int>)
  {
    o.Some? && o.value != 0
  }

  /** The store's invariant: ids strictly increase in storage order. */
  ghost predicate IdsIncreasing(cs: seq<Comment>)
  {
    forall i, j :: 0 <= i < j < |cs| ==> cs[i].id < cs[j].id
  }

  ghost predicate IdsUnique(cs: seq<Comment>)
  {
    forall i, j :: 0 <= i < |cs| && 0 <= j < |cs| && i != j ==> cs[i].id != cs[j].id
  }

  /** The id a create assigns: the last stored record's id plus one, or 1. */
  function NextId(cs: seq<Comment>): int
  {
    if |cs| > 0 then cs[|cs| - 1].id + 1 else 1
  }

  /** `findIndex(c => c.id === id)`: the first position holding `id`, or -1. */
  function FirstIndex(cs: seq<Comment>, id: int): (i: int)
    ensures -1 <= i < |cs|
    ensures i == -1 <==> forall k :: 0 <= k < |cs| ==> cs[k].id != id
    ensures i >= 0 ==> cs[i].id == id && forall k :: 0 <= k < i ==> cs[k].id != id
  {
    if cs == [] then -1
    else if cs[0].id == id then 0
    else
      var j := FirstIndex(cs[1..], id);
      if j == -1 then -1 else j + 1
  }

  /** The comments attached to the post `slug`, in storage order. */
  function ForPost(cs: seq<Comment>, slug: string): (r: seq<Comment>)
    ensures forall k :: 0 <= k < |r| ==> r[k].postSlug == slug && r[k] in cs
    ensures forall k :: 0 <= k < |cs| && cs[k].postSlug == slug ==> cs[k] in r
    ensures forall k :: 0 <= k < |cs| ==>
      multiset(r)[cs[k]] == if cs[k].postSlug == slug then multiset(cs)[cs[k]] else 0
    ensures Seqs.SubsequenceOf(r, cs)
  {
    Seqs.Filter((c: Comment) => c.postSlug == slug, cs)
  }

  /** The position DELETE removes: `findIndex(c => c.id === Number(id))`. */
  function DeleteIndex(cs: seq<Comment>, id: QueryId): int
  {
    if id.IdText? && id.number.Some? then FirstIndex(cs, id.number.value) else -1
  }

  /** What one request does: the response, and the collection written back
      (`None` when the handler returns without calling `writeComments`). */
  datatype Effect = Effect(response: Response, written: Option<seq<Comment>>)

  /** The handler's behaviour on the collection `cs` it has just read. */
  function Step(cs: seq<Comment>, req: Request, now: int): (e: Effect)
    ensures e.response.Status() != 401
    ensures e.response.Status() == 405 <==> req.verb !in AllowedMethods
    ensures e.written.Some? <==> e.response.Status() in {200, 201} && req.verb != "GET"
    ensures e.written.Some? ==>
      |e.written.value| == |cs| + (if req.verb == "POST" then 1 else if req.verb == "PUT" then 0 else -1)
  {
    if req.verb == "POST" then
      var b := req.body;
      if !Truthy(b.postSlug) || !Truthy(b.author) || !Truthy(b.content) then
        Effect(BadRequest(CreateFieldsMessage), None)
      else
        var c := Comment(NextId(cs), b.postSlug.value, b.author.value, b.content.value, now);
        Effect(Created(c), Some(cs + [c]))
    else if req.verb == "GET" then
      if !Truthy(req.query.postSlug) then Effect(BadRequest(SlugParamMessage), None)
      else Effect(Listed(ForPost(cs, req.query.postSlug.value)), None)
    else if req.verb == "PUT" then
      var b := req.body;
      if !TruthyId(b.id) || !Truthy(b.content) then Effect(BadRequest(UpdateFieldsMessage), None)
      else
        var i := FirstIndex(cs, b.id.value);
        if i == -1 then Effect(NotFound(NotFoundMessage), None)
        else
          var c := cs[i].(content := b.content.value, date := now);
          Effect(Done(c), Some(cs[i := c]))
    else if req.verb == "DELETE" then
      if req.query.id.NoId? || req.query.id.EmptyId? then Effect(BadRequest(IdParamMessage), None)
      else
        var i := DeleteIndex(cs, req.query.id);
        if i == -1 then Effect(NotFound(NotFoundMessage), None)
        else Effect(Done(cs[i]), Some(cs[..i] + cs[i + 1..]))
    else
      Effect(MethodNotAllowed(AllowedMethods, "Method " + req.verb + " Not Allowed"), None)
  }

  /** The route as exported, `withAuth(handler)`: a rejected request never
      reaches the handler, so nothing is written. */
  function Route(secret: Option<string>, apiKey: Option<string>, cs: seq<Comment>, req: Request, now: int): (e: Effect)
    ensures e.response.Status() == 401 <==> !Auth.Authorized(secret, apiKey)
    ensures e.written.Some? ==> Auth.Authorized(secret, apiKey)
  {
    match Auth.WithAuth(secret, (r: Request) => Step(cs, r, now), apiKey, req)
    case Unauthorized(message) => Effect(Unauthorized(message), None)
    case Handled(e) => e
  }

  /** The file after the handler: a collection is written only when the
      handler wrote one and `writeFileSync` succeeded. */
  function Persist(f: StoreFile, written: Option<seq<Comment>>, writeOk: bool): StoreFile
  {
    if written.Some? && writeOk then Holds(written.value) else f
  }

  /** The comment endpoint over its backing file. */
  class CommentEndpoint {
    /** The process-wide `API_KEY`. */
    const secret: Option<string>
    var file: StoreFile

    constructor (secret: Option<string>, file: StoreFile)
      ensures this.secret == secret && this.file == file
    {
      this.secret := secret;
      this.file := file;
    }

    /** `readComments()`. */
    method ReadComments() returns (cs: seq<Comment>)
      ensures cs == Loaded(file)
    {
      if file.Holds? {
        cs := file.comments;
      } else {
        cs := [];
      }
    }

    /** `writeComments(cs)`: overwrites the file, unless the write fails. */
    method WriteComments(cs: seq<Comment>, writeOk: bool)
      modifies this
      ensures file == if writeOk then Holds(cs) else old(file)
    {
      if writeOk {
        file := Holds(cs);
      }
    }

    /** The unwrapped `handler`. */
    method Handle(req: Request, now: int, writeOk: bool) returns (res: Response)
      modifies this
      ensures res == Step(Loaded(old(file)), req, now).response
      ensures file == Persist(old(file), Step(Loaded(old(file)), req, now).written, writeOk)
      ensures IdsIncreasing(Loaded(old(file))) ==> IdsIncreasing(Loaded(file))
    {
      var comments := ReadComments();
      ghost var before := comments;
      if IdsIncreasing(before) {
        StepKeepsIdsIncreasing(before, req, now);
      }

      if req.verb == "POST" {
        var body := req.body;
        if !Truthy(body.postSlug) || !Truthy(body.author) || !Truthy(body.content) {
          res := BadRequest(CreateFieldsMessage);
          return;
        }
        var newComment := Comment(
          if |comments| > 0 then comments[|comments| - 1].id + 1 else 1,
          body.postSlug.value, body.author.value, body.content.value, now);
        comments := comments + [newComment];
        WriteComments(comments, writeOk);
        res := Created(newComment);
        return;
      }

      if req.verb == "GET" {
        var postSlug := req.query.postSlug;
        if !Truthy(postSlug) {
          res := BadRequest(SlugParamMessage);
          return;
        }
        res := Listed(ForPost(comments, postSlug.value));
        return;
      }

      if req.verb == "PUT" {
        var body := req.body;
        if !TruthyId(body.id) || !Truthy(body.content) {
          res := BadRequest(UpdateFieldsMessage);
          return;
        }
        var commentIndex := FirstIndex(comments, body.id.value);
        if commentIndex == -1 {
          res := NotFound(NotFoundMessage);
          return;
        }
        comments := comments[commentIndex := comments[commentIndex].(content := body.content.value)];
        comments := comments[commentIndex := comments[commentIndex].(date := now)];
        WriteComments(comments, writeOk);
        res := Done(comments[commentIndex]);
        return;
      }

      if req.verb == "DELETE" {
        var id := req.query.id;
        if id.NoId? || id.EmptyId? {
          res := BadRequest(IdParamMessage);
          return;
        }
        var commentIndex := if id.number.Some? then FirstIndex(comments, id.number.value) else -1;
        if commentIndex == -1 {
          res := NotFound(NotFoundMessage);
          return;
        }
        var deletedComment := comments[commentIndex];
        comments := comments[..commentIndex] + comments[commentIndex + 1..];
        WriteComments(comments, writeOk);
        res := Done(deletedComment);
        return;
      }

      res := MethodNotAllowed(AllowedMethods, "Method " + req.verb + " Not Allowed");
    }

    /** The exported route: `withAuth(handler)`. */
    method Serve(apiKey: Option<string>, req: Request, now: int, writeOk: bool) returns (res: Response)
      modifies this
      ensures res == Route(secret, apiKey, Loaded(old(file)), req, now).response
      ensures file == Persist(old(file), Route(secret, apiKey, Loaded(old(file)), req, now).written, writeOk)
      ensures !Auth.Authorized(secret, apiKey) ==> res.Status() == 401 && file == old(file)
    {
      if apiKey != secret {
        res := Unauthorized(Auth.UnauthorizedMessage);
        return;
      }
      res := Handle(req, now, writeOk);
    }
  }

  // ---------------------------------------------------------------------
  // Properties of the handler

  /** Strictly increasing ids are unique ids. */
  lemma IncreasingIdsAreUnique(cs: seq<Comment>)
    requires IdsIncreasing(cs)
    ensures IdsUnique(cs)
  {
  }

  /** Under the invariant the last id is the largest, so the next id is
      larger than every stored id (the "max + 1" rule coincides with "last + 1"). */
  lemma NextIdIsFresh(cs: seq<Comment>)
    requires IdsIncreasing(cs)
    ensures forall k :: 0 <= k < |cs| ==> cs[k].id < NextId(cs)
  {
  }

  /** Every write the handler makes keeps the ids strictly increasing. */
  lemma StepKeepsIdsIncreasing(cs: seq<Comment>, req: Request, now: int)
    requires IdsIncreasing(cs)
    ensures Step(cs, req, now).written.Some? ==> IdsIncreasing(Step(cs, req, now).written.value)
  {
  }

  /** POST with a missing or empty `postSlug`, `author` or `content` is a
      400 and writes nothing. */
  lemma CreateRequiresAllFields(cs: seq<Comment>, req: Request, now: int)
    requires req.verb == "POST"
    requires !Truthy(req.body.postSlug) || !Truthy(req.body.author) || !Truthy(req.body.content)
    ensures Step(cs, req, now).response.Status() == 400
    ensures Step(cs, req, now).written == None
  {
  }

  /** A valid POST appends exactly one record, built from the body with the
      next id, leaves every earlier record as it was, and answers 201 with it. */
  lemma CreateAppends(cs: seq<Comment>, req: Request, now: int)
    requires req.verb == "POST"
    requires Truthy(req.body.postSlug) && Truthy(req.body.author) && Truthy(req.body.content)
    ensures var e := Step(cs, req, now);
      && e.response.Status() == 201
      && e.written.Some?
      && |e.written.value| == |cs| + 1
      && e.written.value[..|cs|] == cs
      && e.written.value[|cs|] == e.response.comment
      && e.response.comment.id == (if cs == [] then 1 else cs[|cs| - 1].id + 1)
      && e.response.comment.postSlug == req.body.postSlug.value
      && e.response.comment.author == req.body.author.value
      && e.response.comment.content == req.body.content.value
      && e.response.comment.date == now
  {
  }

  /** GET answers with exactly the comments of the requested post, in
      storage order, and writes nothing; without the parameter it is a 400. */
  lemma ListReturnsPostComments(cs: seq<Comment>, req: Request, now: int)
    requires req.verb == "GET"
    ensures var e := Step(cs, req, now);
      && e.written == None
      && (!Truthy(req.query.postSlug) <==> e.response.Status() == 400)
      && (Truthy(req.query.postSlug) ==>
            && e.response.Listed?
            && (forall k :: 0 <= k < |e.response.comments| ==>
                  e.response.comments[k] in cs && e.response.comments[k].postSlug == req.query.postSlug.value)
            && (forall k :: 0 <= k < |cs| && cs[k].postSlug == req.query.postSlug.value ==>
                  cs[k] in e.response.comments)
            && (forall k :: 0 <= k < |cs| ==>
                  multiset(e.response.comments)[cs[k]]
                  == if cs[k].postSlug == req.query.postSlug.value then multiset(cs)[cs[k]] else 0)
            && Seqs.SubsequenceOf(e.response.comments, cs))
  {
  }

  /** PUT: a falsy id (absent or 0) or empty content is a 400, an id that no
      record has is a 404, and neither writes. Otherwise only the `content`
      and `date` of the first record with that id change; the answer is the
      updated record. */
  lemma UpdateChangesOnlyContentAndDate(cs: seq<Comment>, req: Request, now: int)
    requires req.verb == "PUT"
    ensures var e := Step(cs, req, now);
      && ((!TruthyId(req.body.id) || !Truthy(req.body.content)) ==> e.response.Status() == 400 && e.written == None)
      && (TruthyId(req.body.id) && Truthy(req.body.content) ==>
            var i := FirstIndex(cs, req.body.id.value);
            && (i == -1 <==> e.response.Status() == 404)
            && (i == -1 ==> e.written == None)
            && (i != -1 ==>
                  && e.response.Status() == 200
                  && e.written.Some?
                  && |e.written.value| == |cs|
                  && (forall k :: 0 <= k < |cs| && k != i ==> e.written.value[k] == cs[k])
                  && e.written.value[i] == e.response.comment
                  && e.response.comment.id == cs[i].id == req.body.id.value
                  && e.response.comment.postSlug == cs[i].postSlug
                  && e.response.comment.author == cs[i].author
                  && e.response.comment.content == req.body.content.value
                  && e.response.comment.date == now))
  {
  }

  /** DELETE: without an id it is a 400; when no record has `Number(id)`
      it is a 404 and nothing is written; otherwise exactly the first record
      with that id is spliced out and returned. */
  lemma DeleteRemovesFirstMatch(cs: seq<Comment>, req: Request, now: int)
    requires req.verb == "DELETE"
    ensures var e := Step(cs, req, now);
      && ((req.query.id.NoId? || req.query.id.EmptyId?) ==> e.response.Status() == 400 && e.written == None)
      && (req.query.id.IdText? ==>
            var i := DeleteIndex(cs, req.query.id);
            && (i == -1 <==> e.response.Status() == 404)
            && (i == -1 ==> e.written == None)
            && (i != -1 ==>
                  && e.response == Done(cs[i])
                  && cs[i].id == req.query.id.number.value
                  && (forall k :: 0 <= k < i ==> cs[k].id != cs[i].id)
                  && e.written == Some(cs[..i] + cs[i + 1..])
                  && |e.written.value| == |cs| - 1))
  {
  }

  /** Any other method is a 405 advertising the four supported methods, and
      nothing is written. */
  lemma OtherMethodsNotAllowed(cs: seq<Comment>, req: Request, now: int)
    requires req.verb !in AllowedMethods
    ensures Step(cs, req, now).response.Status() == 405
    ensures Step(cs, req, now).response.allow == ["POST", "GET", "PUT", "DELETE"]
    ensures Step(cs, req, now).written == None
  {
  }

  /** A request with the wrong key is a 401 and never reaches the handler. */
  lemma RejectedRequestWritesNothing(secret: Option<string>, apiKey: Option<string>, cs: seq<Comment>, req: Request, now: int)
    requires apiKey != secret
    ensures Route(secret, apiKey, cs, req, now) == Effect(Unauthorized(Auth.UnauthorizedMessage), None)
  {
  }

  /** A request with the right key gets exactly what the handler does. */
  lemma AcceptedRequestIsHandled(secret: Option<string>, cs: seq<Comment>, req: Request, now: int)
    ensures Route(secret, secret, cs, req, now) == Step(cs, req, now)
  {
  }

  /** The collection after running `reqs` one after another on `cs`, each
      request seeing what the previous one wrote. */
  function Run(cs: seq<Comment>, reqs: seq<Request>, now: int): seq<Comment>
    decreases |reqs|
  {
    if reqs == [] then cs
    else
      var e := Step(cs, reqs[0], now);
      Run(if e.written.Some? then e.written.value else cs, reqs[1..], now)
  }

  ghost predicate ValidCreate(req: Request)
  {
    req.verb == "POST" && Truthy(req.body.postSlug) && Truthy(req.body.author) && Truthy(req.body.content)
  }

  /** Ids are global, not per post: valid creates on a store holding ids
      1..m give the new records ids m+1, m+2, ... whatever post they target. */
  lemma {:induction false} CreatesNumberConsecutively(cs: seq<Comment>, reqs: seq<Request>, now: int)
    requires forall k :: 0 <= k < |cs| ==> cs[k].id == k + 1
    requires forall k :: 0 <= k < |reqs| ==> ValidCreate(reqs[k])
    ensures var r := Run(cs, reqs, now);
      |r| == |cs| + |reqs| && forall k :: 0 <= k < |r| ==> r[k].id == k + 1
    decreases |reqs|
  {
    if reqs != [] {
      var next := Step(cs, reqs[0], now).written.value;
      assert next == cs + [next[|cs|]];
      assert next[|cs|].id == |cs| + 1;
      CreatesNumberConsecutively(next, reqs[1..], now);
    }
  }

  /** From an empty store, N valid creates yield the ids 1..N. */
  lemma CreatesFromEmptyNumberFromOne(reqs: seq<Request>, now: int)
    requires forall k :: 0 <= k < |reqs| ==> ValidCreate(reqs[k])
    ensures var r := Run([], reqs, now);
      |r| == |reqs| && forall k :: 0 <= k < |r| ==> r[k].id == k + 1
  {
    CreatesNumberConsecutively([], reqs, now);
  }

  /** Ids are not monotonic over time: a record created and then deleted
      leaves the collection exactly as before, so the next create hands out
      the deleted record's id again. */
  lemma CreateDeleteCreateReusesId(cs: seq<Comment>, first: Request, del: Request, second: Request, now: int)
    requires IdsIncreasing(cs)
    requires ValidCreate(first) && ValidCreate(second)
    requires del.verb == "DELETE" && del.query.id == IdText(Some(NextId(cs)))
    ensures var created := Step(cs, first, now);
      && created.written.Some?
      && Step(created.written.value, del, now).written == Some(cs)
      && Step(cs, second, now).response.comment.id == created.response.comment.id
  {
    var w := Step(cs, first, now).written.value;
    NextIdIsFresh(cs);
    assert w == cs + [w[|cs|]];
    assert FirstIndex(w, NextId(cs)) == |cs|;
    assert w[..|cs|] + w[|cs| + 1..] == cs;
  }
}
