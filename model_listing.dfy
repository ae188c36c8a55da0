/** GET /v1/models: the upstream model list, already fetched, is reshaped
    into one four-field record per model and wrapped in a list object. */
module ModelListing {
  import opened Results
  import opened JsonValues

  /** A model as the upstream client reports it; `kind` is its `object` field. */
  datatype ModelInfo = ModelInfo(id: string, kind: string, created: int, ownedBy: string)

  const EntryKeys: set<string> := {"id", "object", "created", "owned_by"}

  /** The record returned for one model. */
  function Entry(m: ModelInfo): (v: Value)
    ensures v.Obj? && v.fields.Keys == EntryKeys
  {
    Obj(map["id" := Str(m.id), "object" := Str(m.kind), "created" := Int(m.created), "owned_by" := Str(m.ownedBy)])
  }

  /** How a client reads one record back; None when it is not one. */
  function EntryModel(v: Value): Option<ModelInfo>
  {
    if v.Obj? && v.fields.Keys == EntryKeys
       && v.fields["id"].Str? && v.fields["object"].Str?
       && v.fields["created"].Int? && v.fields["owned_by"].Str?
    then Some(ModelInfo(v.fields["id"].s, v.fields["object"].s, v.fields["created"].i, v.fields["owned_by"].s))
    else None
  }

  /** Each record carries its model's four fields and nothing else ... */
  lemma EntryRoundTrip(m: ModelInfo)
    ensures EntryModel(Entry(m)) == Some(m)
  {
  }

  /** ... and a record a client accepts is the record of the model it reads. */
  lemma EntryModelSound(v: Value)
    ensures EntryModel(v).Some? ==> Entry(EntryModel(v).value) == v
  {
  }

  /** Reshapes the upstream list: the response is `{"object": "list",
      "data": data}` where `data` holds one record per model, in order. */
  method ListModels(models: seq<ModelInfo>) returns (response: Value)
    ensures response.Obj? && response.fields.Keys == {"object", "data"}
    ensures response.fields["object"] == Str("list")
    ensures response.fields["data"].Arr?
    ensures |response.fields["data"].elems| == |models|
    ensures forall i :: 0 <= i < |models| ==> response.fields["data"].elems[i] == Entry(models[i])
  {
    var data: seq<Value> := [];
    for i := 0 to |models|
      invariant |data| == i
      invariant forall j :: 0 <= j < i ==> data[j] == Entry(models[j])
    {
      data := data + [Entry(models[i])];
    }
    response := Obj(map["object" := Str("list"), "data" := Arr(data)]);
  }

  function DecodeEntries(items: seq<Value>): Option<seq<ModelInfo>>
  {
    if items == [] then Some([])
    else match (EntryModel(items[0]), DecodeEntries(items[1..]))
      case (Some(m), Some(ms)) => Some([m] + ms)
      case _ => None
  }

  /** How a client reads a model-list response back into models. */
  function DecodeModelList(response: Value): Option<seq<ModelInfo>>
  {
    if response.Obj? && "object" in response.fields && response.fields["object"] == Str("list")
       && "data" in response.fields && response.fields["data"].Arr?
    then DecodeEntries(response.fields["data"].elems)
    else None
  }

  lemma {:induction false} DecodeEntriesOfRecords(items: seq<Value>, models: seq<ModelInfo>)
    requires |items| == |models|
    requires forall i :: 0 <= i < |models| ==> items[i] == Entry(models[i])
    ensures DecodeEntries(items) == Some(models)
  {
    if items != [] {
      EntryRoundTrip(models[0]);
      DecodeEntriesOfRecords(items[1..], models[1..]);
      assert [models[0]] + models[1..] == models;
    }
  }

  /** A response shaped as ListModels promises gives a client back the
      upstream list itself: same length, same order, same fields. */
  lemma ModelListRoundTrip(response: Value, models: seq<ModelInfo>)
    requires response.Obj? && response.fields.Keys == {"object", "data"}
    requires response.fields["object"] == Str("list")
    requires response.fields["data"].Arr?
    requires |response.fields["data"].elems| == |models|
    requires forall i :: 0 <= i < |models| ==> response.fields["data"].elems[i] == Entry(models[i])
    ensures DecodeModelList(response) == Some(models)
  {
    DecodeEntriesOfRecords(response.fields["data"].elems, models);
  }
}
