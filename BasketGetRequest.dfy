/** The basket request: fetches the basket of one session. */
module BasketGetRequests {
  import opened Wrappers
  import opened CollinsRequest

  /** The payload carries the session id and nothing else. */
  datatype Basket = Basket(sessionId: string)

  class BasketGetRequest {
    const basket: Basket

    constructor (basket: Basket)
      ensures this.basket == basket
    {
      this.basket := basket;
    }
  }

  class Builder {
    var sessionId: string

    /** The body of new Builder(sessionId) once validateNotEmpty has passed. */
    constructor Init(sessionId: string)
      requires sessionId != []
      ensures this.sessionId == sessionId
    {
      this.sessionId := sessionId;
    }

    /** new Builder(sessionId): rejects a null or empty session id before storing it. */
    static method Create(sessionId: Option<string>) returns (r: Result<Builder, ValidationError>)
      ensures r.Failure? <==> sessionId.None? || sessionId.value == []
      ensures r.Failure? ==> r.error == EmptyArgument("sessionId")
      ensures r.Success? ==> fresh(r.value) && r.value.sessionId == sessionId.value
    {
      var checked := ValidateNotEmpty(sessionId, "sessionId");
      if checked.Failure? {
        return Failure(checked.error);
      }
      var builder := new Builder.Init(checked.value);
      r := Success(builder);
    }

    /** A new request on every call, carrying exactly the stored session id. */
    method Build() returns (r: BasketGetRequest)
      ensures fresh(r) && unchanged(this)
      ensures r.basket == Basket(sessionId)
    {
      r := new BasketGetRequest(Basket(sessionId));
    }
  }

  /** Two builds give two distinct requests with equal payloads. */
  method BuildTwice(sessionId: string)
    requires sessionId != []
  {
    var created := Builder.Create(Some(sessionId));
    var builder := created.value;
    var first := builder.Build();
    var second := builder.Build();
    assert first != second;
    assert first.basket == second.basket == Basket(sessionId);
  }
}
