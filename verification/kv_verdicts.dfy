/** An operation-agnostic reading of a transport outcome, and the label
    each item operation attaches to it. The three classifiers are shown to
    be this reading followed by a per-operation label table. */
module KvVerdicts {
  import opened Wrappers
  import opened Errors
  import opened Http
  import KvItems

  /** The status-driven reading of an outcome, given the operation's one
      success status. */
  datatype Verdict =
    | NotBuilt
    | TransportFailed
    | Succeeded
    | Conflict
    | NotFound
    | OtherStatus(status: int)

  function VerdictOf(o: Outcome, successStatus: int): Verdict
    requires successStatus != 404 && successStatus != 412
  {
    match o
    case BuildFailed(_) => NotBuilt
    case SendFailed(_) => TransportFailed
    case Received(resp) =>
      if resp.status == successStatus then Succeeded
      else if resp.status == 412 then Conflict
      else if resp.status == 404 then NotFound
      else OtherStatus(resp.status)
  }

  /** Labels for the write; None means success. */
  function PutLabel(v: Verdict): Option<string> {
    match v
    case NotBuilt => Some(ClientError)
    case TransportFailed => Some(HttpError)
    case Succeeded => None
    case Conflict => Some(KeyConflict)
    case NotFound => Some(NoStoreFound)
    case OtherStatus(_) => Some(UnexpectedResponse)
  }

  /** Labels for a delete or a read: a conflict status is just unexpected. */
  function RemoveOrFetchLabel(v: Verdict): Option<string> {
    match v
    case NotBuilt => Some(ClientError)
    case TransportFailed => Some(HttpError)
    case Succeeded => None
    case Conflict => Some(UnexpectedResponse)
    case NotFound => Some(KeyNotFound)
    case OtherStatus(_) => Some(UnexpectedResponse)
  }

  /** The label a result carries, None for success. */
  function LabelOf<T>(r: Result<T, KVError>): Option<string> {
    if r.Success? then None else Some(r.error.shortMessage)
  }

  lemma PutFollowsVerdict(storeId: string, o: Outcome)
    ensures LabelOf(KvItems.ClassifyPut(storeId, o)) == PutLabel(VerdictOf(o, 200))
  {
  }

  lemma DeleteFollowsVerdict(storeId: string, key: string, o: Outcome)
    ensures LabelOf(KvItems.ClassifyDelete(storeId, key, o)) == RemoveOrFetchLabel(VerdictOf(o, 204))
  {
  }

  /** A read follows the verdict, except that a 200 whose body cannot be read
      is a body read error. */
  lemma GetFollowsVerdict(storeId: string, key: string, o: Outcome)
    ensures LabelOf(KvItems.ClassifyGet(storeId, key, o)) ==
            if o.Received? && o.response.status == 200 && o.response.body.Unreadable?
            then Some(BodyReadError)
            else RemoveOrFetchLabel(VerdictOf(o, 200))
  {
  }
}
