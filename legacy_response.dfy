/** The first revision's responses: a plain `{ status, body }` with five constructors. */
module LegacyResponse {
  import opened Values
  import Responses

  /** `{ status, body }`. */
  datatype Response = Response(status: int, body: Value)

  function Ok(body: Value): (r: Response)
    ensures r.status == 200 && r.body == body
  {
    Response(200, body)
  }

  function Created(body: Value): (r: Response)
    ensures r.status == 201 && r.body == body
  {
    Response(201, body)
  }

  /** `noContent()`: the body field is present and `undefined`. */
  function NoContent(): (r: Response)
    ensures r.status == 204 && r.body == Undefined
  {
    Response(204, Undefined)
  }

  function BadRequest(body: Value): (r: Response)
    ensures r.status == 400 && r.body == body
  {
    Response(400, body)
  }

  function NotFound(body: Value): (r: Response)
    ensures r.status == 404 && r.body == body
  {
    Response(404, body)
  }

  /** The five constructors carry pairwise distinct statuses, the same codes the later
      response catalogue gives to the constructors of the same names, and every one but
      `noContent` passes its body through. */
  lemma ConstructorsAgreeWithCatalogue(body: Value)
    ensures Ok(body) == Response(Responses.Code(Responses.Ok), body)
    ensures Created(body) == Response(Responses.Code(Responses.Created), body)
    ensures NoContent() == Response(Responses.Code(Responses.NoContent), Undefined)
    ensures BadRequest(body) == Response(Responses.Code(Responses.BadRequest), body)
    ensures NotFound(body) == Response(Responses.Code(Responses.NotFound), body)
    ensures var codes := [Ok(body).status, Created(body).status, NoContent().status,
                          BadRequest(body).status, NotFound(body).status];
      forall i, j :: 0 <= i < j < |codes| ==> codes[i] != codes[j]
  {
  }
}
