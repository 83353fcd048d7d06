/**
 * The client session (enki_client/client.py): an object that starts unbound,
 * is bound (or rebound) to one model descriptor together with a transport
 * handle opened on that model's endpoint, and then composes encoding,
 * transport and decoding for each inference call.
 */
module Client {
  import opened Common
  import opened RequestTypes
  import opened ResponseTypes
  import opened Models

  /** A transport handle of the inference SDK: it is opened on one endpoint. */
  class InferenceServerClient {
    const endpoint: string

    constructor(endpoint: string)
      ensures this.endpoint == endpoint
    {
      this.endpoint := endpoint;
    }
  }

  class EnkiClient {
    var apiKey: string
    var model: Option<ModelDescriptor>
    var kserveClient: InferenceServerClient?

    /** The two states of a session: unbound, with neither a model nor a
        handle, or bound, with a model and a handle on that model's endpoint. */
    predicate Valid()
      reads this
    {
      && (model.None? <==> kserveClient == null)
      && (model.Some? ==> kserveClient.endpoint == model.value.endpoint)
    }

    /** A new client keeps its key and starts unbound. */
    constructor(apiKey: string)
      ensures this.apiKey == apiKey
      ensures model == None && kserveClient == null
      ensures Valid()
    {
      this.apiKey := apiKey;
      model := None;
      kserveClient := null;
    }

    /** use_model: binds, or rebinds, the session to `m`, replacing both the
        model and the handle; the key is left alone. */
    method UseModel(m: ModelDescriptor)
      modifies this
      ensures model == Some(m)
      ensures kserveClient != null && fresh(kserveClient)
      ensures kserveClient.endpoint == m.endpoint
      ensures apiKey == old(apiKey)
      ensures Valid()
    {
      model := Some(m);
      kserveClient := new InferenceServerClient(m.endpoint);
    }

    /** infer: encode with the bound model, send through the handle, decode
        with the bound model. Besides the result it reports the file reads
        the encoding attempted and the request handed to the transport, if
        any. An exception at any step ends the call, so nothing is sent
        when encoding fails, and an unbound session fails at the first step.
        The method changes nothing: the session stays as it was. */
    method Infer(r: Request, fs: FileSystem, codecs: Codecs, transport: Transport)
      returns (res: Result<Response>, fileReads: seq<Path>, sent: Option<InferRequest>)
      requires Valid()
      ensures model.None? ==> res == Err(Unbound) && fileReads == [] && sent == None
      ensures model.Some? ==> fileReads == ToInferenceRequest(model.value, r, fs, codecs).fileReads
      ensures model.Some? && ToInferenceRequest(model.value, r, fs, codecs).result.Err? ==>
        sent == None && res == Err(ToInferenceRequest(model.value, r, fs, codecs).result.error)
      ensures model.Some? && r.Kind() != model.value.inputType ==>
        res == Err(TypeMismatch(model.value.inputType)) && fileReads == [] && sent == None
      ensures sent.Some? ==>
        && model.Some? && kserveClient != null
        && ToInferenceRequest(model.value, r, fs, codecs).result == Ok(sent.value)
        && sent.value.modelName == model.value.name
        && |sent.value.inferInputs| == 1
      ensures model.Some? && ToInferenceRequest(model.value, r, fs, codecs).result.Ok? ==>
        && sent.Some?
        && match transport(kserveClient.endpoint, sent.value)
           case Ok(response) => res == ToResponse(model.value, response, codecs)
           case Err(e) => res == Err(e)
    {
      if model.None? {
        return Err(Unbound), [], None;
      }
      var m := model.value;
      var enc := ToInferenceRequest(m, r, fs, codecs);
      fileReads := enc.fileReads;
      if enc.result.Err? {
        return Err(enc.result.error), fileReads, None;
      }
      sent := Some(enc.result.value);
      var reply := transport(kserveClient.endpoint, enc.result.value);
      match reply
      case Ok(response) =>
        res := ToResponse(m, response, codecs);
      case Err(e) =>
        res := Err(e);
    }
  }

  /** test_use_model: after binding, the session holds the model and a handle. */
  method UseModelScenario(m: ModelDescriptor) returns (client: EnkiClient)
    ensures client.model == Some(m)
    ensures client.kserveClient != null && client.kserveClient.endpoint == m.endpoint
    ensures client.apiKey == "test_api_key"
  {
    client := new EnkiClient("test_api_key");
    client.UseModel(m);
  }

  /** test_infer: on a bound session whose model accepts the request and
      encodes it, the result is whatever decoding makes of the transport's
      reply to exactly that encoded request. */
  method InferScenario(m: ModelDescriptor, r: Request, fs: FileSystem, codecs: Codecs,
                       transport: Transport, reply: InferResponse)
    returns (res: Result<Response>)
    requires ToInferenceRequest(m, r, fs, codecs).result.Ok?
    requires transport(m.endpoint, ToInferenceRequest(m, r, fs, codecs).result.value) == Ok(reply)
    ensures res == ToResponse(m, reply, codecs)
  {
    var client := new EnkiClient("test_api_key");
    client.UseModel(m);
    var fileReads, sent;
    res, fileReads, sent := client.Infer(r, fs, codecs, transport);
  }
}
