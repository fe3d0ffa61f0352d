/** The resource's lifecycle operations over the tracked item state. Each
    issues at most one request and reports through diagnostics. */
module KvLifecycle {
  import opened Wrappers
  import opened Framework
  import opened Errors
  import opened Http
  import opened Provider
  import opened KvRequests
  import opened KvItems

  /** The tracked state: store id, key, value and the optional metadata. */
  datatype ItemModel = ItemModel(storeId: string, key: string, value: string, metadata: TfString)

  /** What an operation does to the response state: leaves it as the
      framework prepared it, or writes the given model. */
  datatype StateWrite = Untouched | Written(model: ItemModel)

  /** The request an operation issued, its diagnostics and its state write. */
  datatype Step = Step(sent: Option<Request>, diagnostics: seq<Diagnostic>, state: StateWrite)

  const CreateFailedSummary := "Failed to create KV Store item"
  const CreateFailedPrefix := "An error occurred while executing the creation. If unexpected, please report this issue to the provider developers.\n\nJSON Error: "
  const ReadFailedSummary := "Failed to get KV Store item"
  const UpdateFailedSummary := "Failed to update KV Store item"
  const UpdateFailedPrefix := "An error occurred while executing the update. If unexpected, please report this issue to the provider developers.\n\nJSON Error: "
  const DeleteFailedSummary := "Unable to Delete Resource"
  const DeleteFailedPrefix := "An unexpected error occurred while executing the request. Please report this issue to the provider developers.\n\nJSON Error: "
  const UnchangedSummary := "Skipping KV item Update."
  const UnchangedDetail := "The old and new KV item values and metadata are the same. This would result in no physical change to the item."

  /** Write headers taken from a model: its metadata text, empty when unset. */
  function HeadersOf(m: ItemModel): KVStoreAPIHeaders {
    KVStoreAPIHeaders(m.metadata.ValueString())
  }

  /** Create: write the planned item, refusing to overwrite an existing key. */
  function Create(conn: ConfiguredData, plan: ItemModel, o: Outcome): (r: Step)
    ensures r.sent.Some? <==> !o.BuildFailed?
    ensures r.sent.Some? ==>
              && r.sent.value.verb == Put
              && r.sent.value.url == ItemUrl(conn.baseUrl, plan.storeId, plan.key)
              && r.sent.value.body == Some(plan.value)
              && EncodeQuery(r.sent.value.query) == "add=true"
    ensures r.state.Written? <==> o.Received? && o.response.status == 200
    ensures r.state.Written? ==> r.state.model == plan && r.diagnostics == []
    ensures r.state.Untouched? ==>
              r.diagnostics == [Diagnostic(Error, CreateFailedSummary,
                                  CreateFailedPrefix + Render(ClassifyPut(plan.storeId, o).error))]
  {
    var c := UpdateKVStoreItem(conn, plan.storeId, plan.key, plan.value, HeadersOf(plan),
                               KVStoreAPIQueryParameters(true), o);
    if c.result.Failure? then
      Step(c.sent, [Diagnostic(Error, CreateFailedSummary, CreateFailedPrefix + Render(c.result.error))], Untouched)
    else
      Step(c.sent, [], Written(plan))
  }

  /** Read: fetch the item and refresh the value alone. */
  function Read(conn: ConfiguredData, state: ItemModel, o: Outcome): (r: Step)
    ensures r.sent.Some? <==> !o.BuildFailed?
    ensures r.sent.Some? ==> r.sent.value == GetRequest(conn, state.storeId, state.key)
    ensures r.state.Written? <==> o.Received? && o.response.status == 200 && o.response.body.Body?
    ensures r.state.Written? ==>
              && r.state.model.value == o.response.body.text
              && r.state.model.storeId == state.storeId
              && r.state.model.key == state.key
              && r.state.model.metadata == state.metadata
              && r.diagnostics == []
    ensures r.state.Untouched? ==>
              r.diagnostics == [Diagnostic(Error, ReadFailedSummary,
                                  Render(ClassifyGet(state.storeId, state.key, o).error))]
  {
    var c := GetKVStoreItem(conn, state.storeId, state.key, o);
    if c.result.Failure? then
      Step(c.sent, [Diagnostic(Error, ReadFailedSummary, Render(c.result.error))], Untouched)
    else
      Step(c.sent, [], Written(state.(value := c.result.value)))
  }

  /** The advisory Update adds when neither the value nor the metadata changes. */
  function UnchangedWarnings(plan: ItemModel, state: ItemModel): (ws: seq<Diagnostic>)
    ensures HasWarning(ws) <==> plan.value == state.value && plan.metadata == state.metadata
    ensures CountErrors(ws) == 0
    ensures |ws| <= 1
    ensures forall i :: 0 <= i < |ws| ==> ws[i] == Diagnostic(Warning, UnchangedSummary, UnchangedDetail)
  {
    if plan.value == state.value && plan.metadata == state.metadata then
      var w := Diagnostic(Warning, UnchangedSummary, UnchangedDetail);
      assert [w][0] == w;
      [w]
    else []
  }

  /** Update: warn when nothing changed, then write the plan anyway,
      overwriting whatever the key holds. */
  function Update(conn: ConfiguredData, plan: ItemModel, state: ItemModel, o: Outcome): (r: Step)
    ensures HasWarning(r.diagnostics) <==> plan.value == state.value && plan.metadata == state.metadata
    ensures r.sent.Some? <==> !o.BuildFailed?
    ensures r.sent.Some? ==>
              && r.sent.value.verb == Put
              && r.sent.value.url == ItemUrl(conn.baseUrl, plan.storeId, plan.key)
              && r.sent.value.body == Some(plan.value)
              && r.sent.value.query == []
    ensures r.state.Written? <==> o.Received? && o.response.status == 200
    ensures r.state.Written? ==> r.state.model == plan && !HasError(r.diagnostics)
    ensures r.state.Written? ==> r.diagnostics == UnchangedWarnings(plan, state)
    ensures r.state.Untouched? ==> CountErrors(r.diagnostics) == 1
    ensures r.state.Untouched? ==>
              r.diagnostics == UnchangedWarnings(plan, state)
                               + [Diagnostic(Error, UpdateFailedSummary,
                                    UpdateFailedPrefix + Render(ClassifyPut(plan.storeId, o).error))]
  {
    var warnings := UnchangedWarnings(plan, state);
    var c := UpdateKVStoreItem(conn, plan.storeId, plan.key, plan.value, HeadersOf(plan),
                               KVStoreAPIQueryParameters(false), o);
    if c.result.Failure? then
      var failed := Diagnostic(Error, UpdateFailedSummary, UpdateFailedPrefix + Render(c.result.error));
      assert !HasWarning([failed]) by { assert [failed][0] == failed; }
      HasWarningAppend(warnings, [failed]);
      Step(c.sent, warnings + [failed], Untouched)
    else
      Step(c.sent, warnings, Written(plan))
  }

  /** Delete: remove the item; only a 204 counts as done. The state is never
      written here: on success the framework drops it. */
  function Delete(conn: ConfiguredData, state: ItemModel, o: Outcome): (r: Step)
    ensures r.state == Untouched
    ensures !HasError(r.diagnostics) ==> r.diagnostics == []
    ensures r.sent.Some? <==> !o.BuildFailed?
    ensures r.sent.Some? ==> r.sent.value == DeleteRequest(conn, state.storeId, state.key)
    ensures HasError(r.diagnostics) <==> !(o.Received? && o.response.status == 204)
    ensures HasError(r.diagnostics) ==>
              r.diagnostics == [Diagnostic(Error, DeleteFailedSummary,
                                  DeleteFailedPrefix + Render(ClassifyDelete(state.storeId, state.key, o).error))]
  {
    var c := DeleteKVStoreItem(conn, state.storeId, state.key, o);
    if c.result.Failure? then
      Step(c.sent, [Diagnostic(Error, DeleteFailedSummary, DeleteFailedPrefix + Render(c.result.error))], Untouched)
    else
      Step(c.sent, [], Untouched)
  }

  /** Create and Update of the same model issue the same write, except that
      only Create asks the store to refuse an existing key. */
  lemma CreateAndUpdateDifferOnlyInAddFlag(conn: ConfiguredData, plan: ItemModel, state: ItemModel, o: Outcome)
    ensures Create(conn, plan, o).sent.Some? <==> Update(conn, plan, state, o).sent.Some?
    ensures Create(conn, plan, o).sent.Some? ==>
              && Create(conn, plan, o).sent.value.(query := []) == Update(conn, plan, state, o).sent.value
              && EncodeQuery(Create(conn, plan, o).sent.value.query) == "add=true"
              && EncodeQuery(Update(conn, plan, state, o).sent.value.query) == ""
    ensures Create(conn, plan, o).state == Update(conn, plan, state, o).state
  {
    WriteRequestsDifferOnlyInQuery(conn, plan.storeId, plan.key, plan.value, HeadersOf(plan));
  }

  /** The prior state only decides the warning: the request issued and the
      state written are the same whatever it is. */
  lemma UpdateWritesRegardless(conn: ConfiguredData, plan: ItemModel, s1: ItemModel, s2: ItemModel, o: Outcome)
    ensures Update(conn, plan, s1, o).sent == Update(conn, plan, s2, o).sent
    ensures Update(conn, plan, s1, o).state == Update(conn, plan, s2, o).state
    ensures HasError(Update(conn, plan, s1, o).diagnostics) == HasError(Update(conn, plan, s2, o).diagnostics)
  {
  }

  /** The planned metadata text goes out as the metadata header, and only
      when it is non-empty, on Create and Update alike; every write carries
      the credential and no other header. */
  lemma WriteHeaders(conn: ConfiguredData, plan: ItemModel, state: ItemModel, o: Outcome)
    requires !o.BuildFailed?
    ensures var req := Create(conn, plan, o).sent.value;
            && HeaderValues(req.headers, AuthHeader) == [conn.apiKey]
            && |req.headers| == (if plan.metadata.ValueString() == "" then 1 else 2)
            && HeaderValues(req.headers, MetadataHeader)
               == (if plan.metadata.ValueString() == "" then [] else [plan.metadata.ValueString()])
    ensures var req := Update(conn, plan, state, o).sent.value;
            && HeaderValues(req.headers, AuthHeader) == [conn.apiKey]
            && |req.headers| == (if plan.metadata.ValueString() == "" then 1 else 2)
            && HeaderValues(req.headers, MetadataHeader)
               == (if plan.metadata.ValueString() == "" then [] else [plan.metadata.ValueString()])
  {
  }

  /** A failed operation leaves exactly one error, and its detail ends with
      the rendered error, whose first line is the error's label. */
  lemma FailureReportsLabel(conn: ConfiguredData, plan: ItemModel, o: Outcome)
    requires Create(conn, plan, o).state.Untouched?
    ensures var d := Create(conn, plan, o).diagnostics;
            var e := ClassifyPut(plan.storeId, o).error;
            && CountErrors(d) == 1
            && d[0].detail == CreateFailedPrefix + Render(e)
            && SplitFirstLine(Render(e)).0 == e.shortMessage
  {
    RenderRoundTrip(ClassifyPut(plan.storeId, o).error);
  }

  /** With configuration from the provider, every write goes to the fixed
      API host and carries the resolved token as its credential. */
  lemma ConfiguredWritesUseResolvedToken(env: string, config: ProviderModel, plan: ItemModel, o: Outcome)
    requires Configure(env, config).resourceData.Some?
    requires !o.BuildFailed?
    ensures var req := Create(Configure(env, config).resourceData.value, plan, o).sent.value;
            && req.url == FastlyApiUrl + ItemsSegment + plan.storeId + KeysSegment + plan.key
            && HeaderValues(req.headers, AuthHeader) == [ResolveToken(env, config)]
  {
  }
}
