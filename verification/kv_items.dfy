/** The three item operations: each builds one request, hands it to the
    client, and classifies what comes back. */
module KvItems {
  import opened Wrappers
  import opened Errors
  import opened Http
  import opened Provider
  import opened KvRequests

  /** The request an operation handed to the client (None when it could not
      be built) and what the operation returned. */
  datatype Call<T> = Call(sent: Option<Request>, result: Result<T, KVError>)

  function ClientErrorOf(cause: string): KVError {
    KVError(ClientError, "Unable to create http request, got error: " + cause)
  }

  function HttpErrorOf(cause: string): KVError {
    KVError(HttpError, "There has been an error with the http request, got error: " + cause)
  }

  function UnexpectedOf(statusText: string): KVError {
    KVError(UnexpectedResponse, "The KV item Creation Request returned a non-200 response of " + statusText + ".")
  }

  function KeyNotFoundOf(storeId: string, key: string): KVError {
    KVError(KeyNotFound,
      "Either the KV store " + storeId + " cannot be found within your account or the key "
      + key + " does not exist within the KV Store")
  }

  /** Outcome of a write: 412 is checked first, then 404, and only 200 is
      success. A build or transport failure never reaches a status check. */
  function ClassifyPut(storeId: string, o: Outcome): (r: Result<(), KVError>)
    ensures r.Success? <==> o.Received? && o.response.status == 200
    ensures o.BuildFailed? ==> r == Failure(ClientErrorOf(o.cause))
    ensures o.SendFailed? ==> r == Failure(HttpErrorOf(o.cause))
    ensures o.Received? ==>
              (r.Failure? && r.error.shortMessage == KeyConflict <==> o.response.status == 412)
    ensures o.Received? ==>
              (r.Failure? && r.error.shortMessage == NoStoreFound <==> o.response.status == 404)
    ensures o.Received? ==>
              (r.Failure? && r.error.shortMessage == UnexpectedResponse <==> o.response.status !in {200, 404, 412})
    ensures r.Failure? ==> IsLabel(r.error.shortMessage)
  {
    match o
    case BuildFailed(cause) => Failure(ClientErrorOf(cause))
    case SendFailed(cause) => Failure(HttpErrorOf(cause))
    case Received(resp) =>
      if resp.status == 412 then
        Failure(KVError(KeyConflict, "This key already exists within the KV store."))
      else if resp.status == 404 then
        Failure(KVError(NoStoreFound, "The KV store " + storeId + " cannot be found within your account"))
      else if resp.status != 200 then
        Failure(UnexpectedOf(resp.statusText))
      else
        Success(())
  }

  /** Outcome of a delete: only 204 is success; 404 is the not-found label
      and every other status, 200 included, is unexpected. */
  function ClassifyDelete(storeId: string, key: string, o: Outcome): (r: Result<(), KVError>)
    ensures r.Success? <==> o.Received? && o.response.status == 204
    ensures o.BuildFailed? ==> r == Failure(ClientErrorOf(o.cause))
    ensures o.SendFailed? ==> r == Failure(HttpErrorOf(o.cause))
    ensures o.Received? ==>
              (r.Failure? && r.error.shortMessage == KeyNotFound <==> o.response.status == 404)
    ensures o.Received? ==>
              (r.Failure? && r.error.shortMessage == UnexpectedResponse <==> o.response.status !in {204, 404})
    ensures r.Failure? ==> IsLabel(r.error.shortMessage)
  {
    match o
    case BuildFailed(cause) => Failure(ClientErrorOf(cause))
    case SendFailed(cause) => Failure(HttpErrorOf(cause))
    case Received(resp) =>
      if resp.status == 404 then Failure(KeyNotFoundOf(storeId, key))
      else if resp.status != 204 then Failure(UnexpectedOf(resp.statusText))
      else Success(())
  }

  /** Outcome of a read: 404 is the not-found label, any status but 200 is
      unexpected, and on 200 the body text is the value, unchanged, unless
      the body cannot be read. */
  function ClassifyGet(storeId: string, key: string, o: Outcome): (r: Result<string, KVError>)
    ensures r.Success? <==> o.Received? && o.response.status == 200 && o.response.body.Body?
    ensures r.Success? ==> r.value == o.response.body.text
    ensures o.BuildFailed? ==> r == Failure(ClientErrorOf(o.cause))
    ensures o.SendFailed? ==> r == Failure(HttpErrorOf(o.cause))
    ensures o.Received? ==>
              (r.Failure? && r.error.shortMessage == KeyNotFound <==> o.response.status == 404)
    ensures o.Received? ==>
              (r.Failure? && r.error.shortMessage == UnexpectedResponse <==> o.response.status !in {200, 404})
    ensures o.Received? ==>
              (r.Failure? && r.error.shortMessage == BodyReadError <==>
                 o.response.status == 200 && o.response.body.Unreadable?)
    ensures r.Failure? ==> IsLabel(r.error.shortMessage)
  {
    match o
    case BuildFailed(cause) => Failure(ClientErrorOf(cause))
    case SendFailed(cause) => Failure(HttpErrorOf(cause))
    case Received(resp) =>
      if resp.status == 404 then Failure(KeyNotFoundOf(storeId, key))
      else if resp.status != 200 then Failure(UnexpectedOf(resp.statusText))
      else match resp.body
        case Unreadable => Failure(KVError(BodyReadError, "Unable to read response body"))
        case Body(text) => Success(text)
  }

  /** updateKVStoreitem: one PUT of the value to the item URL. */
  function UpdateKVStoreItem(
    conn: ConfiguredData, storeId: string, key: string, value: string,
    headers: KVStoreAPIHeaders, params: KVStoreAPIQueryParameters, o: Outcome): (c: Call<()>)
    ensures c.sent.Some? <==> !o.BuildFailed?
    ensures c.sent.Some? ==> c.sent.value == PutRequest(conn, storeId, key, value, headers, params)
    ensures c.sent.None? <==> c.result.Failure? && c.result.error.shortMessage == ClientError
    ensures c.result.Success? <==> c.sent.Some? && o.Received? && o.response.status == 200
  {
    var sent := if o.BuildFailed? then None else Some(PutRequest(conn, storeId, key, value, headers, params));
    Call(sent, ClassifyPut(storeId, o))
  }

  /** deleteKVStoreitem: one DELETE of the item URL. */
  function DeleteKVStoreItem(conn: ConfiguredData, storeId: string, key: string, o: Outcome): (c: Call<()>)
    ensures c.sent.Some? <==> !o.BuildFailed?
    ensures c.sent.Some? ==> c.sent.value == DeleteRequest(conn, storeId, key)
    ensures c.sent.None? <==> c.result.Failure? && c.result.error.shortMessage == ClientError
    ensures c.result.Success? <==> c.sent.Some? && o.Received? && o.response.status == 204
  {
    var sent := if o.BuildFailed? then None else Some(DeleteRequest(conn, storeId, key));
    Call(sent, ClassifyDelete(storeId, key, o))
  }

  /** getKVStoreitem: one GET of the item URL. */
  function GetKVStoreItem(conn: ConfiguredData, storeId: string, key: string, o: Outcome): (c: Call<string>)
    ensures c.sent.Some? <==> !o.BuildFailed?
    ensures c.sent.Some? ==> c.sent.value == GetRequest(conn, storeId, key)
    ensures c.sent.None? <==> c.result.Failure? && c.result.error.shortMessage == ClientError
    ensures c.result.Success? <==>
              c.sent.Some? && o.Received? && o.response.status == 200 && o.response.body.Body?
    ensures c.result.Success? ==> c.result.value == o.response.body.text
  {
    var sent := if o.BuildFailed? then None else Some(GetRequest(conn, storeId, key));
    Call(sent, ClassifyGet(storeId, key, o))
  }

  /** The write and delete outcomes depend on the status alone, never on
      the body. */
  lemma StatusAloneDecides(storeId: string, key: string, r1: Response, r2: Response)
    requires r1.status == r2.status && r1.statusText == r2.statusText
    ensures ClassifyPut(storeId, Received(r1)) == ClassifyPut(storeId, Received(r2))
    ensures ClassifyDelete(storeId, key, Received(r1)) == ClassifyDelete(storeId, key, Received(r2))
  {
  }

  /** A failed build or send gives the same error in all three operations. */
  lemma TransportFailuresUniform(storeId: string, key: string, o: Outcome)
    requires !o.Received?
    ensures ClassifyPut(storeId, o) == ClassifyDelete(storeId, key, o)
    ensures ClassifyGet(storeId, key, o) == Failure(ClassifyPut(storeId, o).error)
  {
  }
}
