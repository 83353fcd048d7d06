# enki-client, modelled in Dafny

enki-client is a thin Python client for models served over an inference
protocol. This project models the logic the client has of its own.

- **Request encoding.** Each of the three request classes (image, text,
  text-to-image) becomes exactly one named tensor input of shape `[1]` and
  datatype `"BYTES"`.
  - An image reference that starts with `"http"` is passed through.
  - Any other image reference is read from the file system.
  - A text-to-image request serialises a record with fixed keys. Two extra
    keys are added when the request has a reference image.
- **The model registry.** Five model descriptors, each with a name, an
  input request class, an output response class and an endpoint.
  - The dispatch is type-checked: a request of another class is rejected
    before anything is encoded.
  - `list_models` collects the names of the model classes defined in the
    module.
- **Response selection.** Each response class reads fixed positions of the
  first output's data list and hands them to a foreign decoder.
- **The client session.** It starts unbound and is bound to a model by
  `use_model`. `infer` then encodes, transports and decodes.

The foreign libraries enter the model as plain values:

- The file system is a map from paths to bytes.
- The JSON serialiser, the JSON parser and the image decoder are fields of
  a `Codecs` record of functions. Each may fail.
- The remote inference call is a `Transport` function of the endpoint and
  the request.

Encoders return the paths of the files they tried to read alongside their
result. This is what lets "no file is read" be stated.

Modules, one file each:

- `common.dfy`: `Common`, the shared values, errors and record shapes.
- `request_types.dfy`: `RequestTypes`.
- `response_types.dfy`: `ResponseTypes`.
- `models.dfy`: `Models`.
- `client.dfy`: `Client`.

Where the docstrings and the code disagree, the model follows the code:

- The text-to-image constructor defaults `width` and `height` to 1024. Its
  docstring says 512.
- It defaults `neg_prompt` to the empty string. Its docstring names another
  default.

## Model

| member | source | states |
|---|---|---|
| Common.ReadFile | enki_client/request_types.py:37-38 | Reading a path succeeds exactly when the file exists and yields its bytes; otherwise it is an I/O error naming that path |
| RequestTypes.Request.Kind | enki_client/models.py:24 | The class compared by the model's type check is the request's own variant, and each variant has its own class |
| RequestTypes.IsUrl | enki_client/request_types.py:34 | A reference is a URL exactly when its first four characters are "http" |
| RequestTypes.UrlTestIsCaseSensitive | enki_client/request_types.py:34 | The prefix test is literal and case-sensitive: "HTTPS://…", "ftp://…" and "htt" are paths, while "httpfile.png" counts as a URL |
| RequestTypes.HasReferenceImage | enki_client/request_types.py:116 | The truthiness test: a reference image counts exactly when it is present and non-empty, so None and "" both mean no image |
| RequestTypes.BytesInput | enki_client/request_types.py:40 | The input built has the given name, shape [1], datatype "BYTES" and the one given element |
| RequestTypes.EncodeImage | enki_client/request_types.py:26-41 | No file is read exactly when the reference starts with "http"; a URL becomes the data unchanged; any other reference is read once, succeeds exactly when the file exists, with the file's bytes as the data, and otherwise fails with an I/O error on that path; the input is named "image" |
| RequestTypes.EncodeText | enki_client/request_types.py:54-62 | No file is read; the encoding always succeeds with one "text" input whose element is the text unchanged |
| RequestTypes.Keys | enki_client/request_types.py:107-120 | The keys of a record are its entries' keys, in insertion order |
| RequestTypes.LookupFirst | enki_client/request_types.py:107-120 | The value of a key in a record is that of the key's first entry |
| RequestTypes.LookupMissing | enki_client/request_types.py:107-116 | A key absent from the keys has no value |
| RequestTypes.LookupPrefix | enki_client/request_types.py:116-120 | Appending entries leaves the value of every key already present unchanged |
| RequestTypes.BaseRecord | enki_client/request_types.py:107-115 | The dict literal has exactly the seven keys prompt, neg_prompt, num_inference_steps, guidance_scale, width, height, seed, in that order, each holding the stored field |
| RequestTypes.Parameters | enki_client/request_types.py:107-120 | Without an image the record is the seven keys and has neither image_data nor image_strength; with one it is the seven unchanged, then image_data holding the file's bytes and image_strength holding the stored strength |
| RequestTypes.ParametersKeepStoredValues | enki_client/request_types.py:116-120 | Adding the image leaves the value of every fixed key unchanged |
| RequestTypes.ParametersHoldImage | enki_client/request_types.py:119-120 | With an image, image_data maps to the file's bytes and image_strength to the stored strength |
| RequestTypes.Serialise | enki_client/request_types.py:122-123 | Succeeds exactly when the serialiser does, with one "prompt" input whose element is the serialised record; a serialiser failure is passed on |
| RequestTypes.EncodeTextToImage | enki_client/request_types.py:100-124 | Without a reference image (None or empty) nothing is read and the record without image keys is serialised; with one, exactly that path is read, a missing file is an I/O error, and otherwise the record holding the file's bytes is serialised |
| RequestTypes.CreateInferenceRequest | enki_client/request_types.py:26-124 | Each request class is encoded by exactly its own encoder (image, text or text-to-image, whose contents are stated above); the files read are exactly the request's target, if any; a success is one input named "image", "text" or "prompt" by class; a missing target is an I/O error; image and text requests fail only on a missing file |
| RequestTypes.EncodingReadsOnlyItsTarget | enki_client/request_types.py:34-38 | Two file systems that agree on the request's target give the same encoding |
| RequestTypes.TextToImageDefaults | enki_client/request_types.py:65-98 | Omitted arguments default to image None, strength 0.5, neg_prompt "", steps 25, guidance 7.5, width and height 1024 and seed 0, and the prompt is stored unchanged |
| RequestTypes.ReferenceUrlIsOpenedAsFile | enki_client/request_types.py:116-118 | An image request does not read a URL, but a text-to-image request reads its reference image as a file even when it starts with "http", and fails with an I/O error when no such file exists |
| ResponseTypes.DataAt | enki_client/response_types.py:48 | Element k of the first output exists exactly when there is an output and k is in range; otherwise it is an index error |
| ResponseTypes.DecodeObject | enki_client/response_types.py:41-49 | A missing element 0 is an index error; otherwise the result is the JSON parse of element 0, a parse failure being passed on |
| ResponseTypes.DecodeImage | enki_client/response_types.py:56-64 | A missing element 0 is an index error; otherwise the result is the image decoded from element 0, a decoding failure being passed on |
| ResponseTypes.DecodeTextToImage | enki_client/response_types.py:71-88 | Succeeds exactly when element 0 decodes as an image and element 1 of the same output parses as JSON, giving that pair; failures are reported in evaluation order: missing element 0, the image error, missing element 1, the parse error of element 1 |
| ResponseTypes.DecodeEmbedding | enki_client/response_types.py:94-102 | Succeeds exactly when element 0 exists and returns it unchanged; otherwise an index error |
| ResponseTypes.CreateResponse | enki_client/response_types.py:41-102 | A successful decoding yields the value shape of the chosen response class (object, image, image with metadata, embedding); a missing element 0 is an index error under every class |
| ResponseTypes.DecodingReadsOnlyItsPositions | enki_client/response_types.py:41-102 | Two responses that agree on the positions a decoder reads decode alike |
| ResponseTypes.MissingFirstElementFails | enki_client/response_types.py:41-102 | With no output or an empty first output, every decoder fails with an index error rather than yielding an empty value |
| ResponseTypes.TextToImageNeedsSecondElement | enki_client/response_types.py:84-87 | A first output holding only a decodable image is an index error: the metadata is not taken from a second output |
| Models.ToInferenceRequest | enki_client/models.py:23-28 | Succeeds only when the request's class is the input type; on a mismatch it is a type error with no file read; on a match it has the encoder's reads and wraps the encoded input as the single input of a request addressed by the model's name, or passes the encoder's error on |
| Models.ToResponse | enki_client/models.py:30-31 | Decodes with exactly the decoder of the descriptor's output type |
| Models.ToResponseOnlyByOutputType | enki_client/models.py:30-31 | Two descriptors with the same output type decode alike |
| Models.CatalogTable | enki_client/models.py:34-79 | The five descriptors (WDTaggerModel, TextToImageModel, ImageToImageModel, ImageEmbeddingModel, ImageClassificationModel, gathered in Catalog in definition order) have the input types, output types and endpoints the catalog fixes, and every endpoint is non-empty |
| Models.TextRequestsAreRejected | enki_client/models.py:34-79 | No catalog model accepts a text request; sending one is a type error with no file read |
| Models.IsListed | enki_client/models.py:12 | The filter (isclass, issubclass of Model, not Model itself, as IsClass and IsSubclassOfModel) keeps exactly the proper subclasses of Model |
| Models.CollectListed | enki_client/models.py:10-14 | The loop returns the `__name__` of every member that passes the filter, in member order; the binding name is discarded |
| Models.ListModels | enki_client/models.py:8-14 | list_models on this module returns exactly the five model class names, in name order |
| Models.ListedModuleNames | enki_client/models.py:8-14 | The filter over this module's members (ModuleMembers: its twelve top-level names in getmembers order, the five model classes taken from Catalog) keeps exactly the five model class names |
| Models.ListedFromExact | enki_client/models.py:11-13 | A name is kept from a position on exactly when some member from there on passes the filter and is a class of that name |
| Models.ListedNamesExact | enki_client/models.py:11-13 | A name is listed exactly when some member passing the filter is a class of that name |
| Models.ListedFromDistinct | enki_client/models.py:11-13 | When no two listed classes share a class name, no name is repeated from any position on |
| Models.ListedNamesDistinct | enki_client/models.py:11-13 | When no two listed classes share a class name, the listing repeats no name |
| Models.AliasListedTwice | enki_client/models.py:11-13 | One class bound under two names is listed twice under its own class name, so distinct bindings alone do not rule out repeats |
| Models.ModuleBindsClassesByName | enki_client/models.py:1-79 | In this module every class is bound under its own `__name__`, so the binding names and the listed names agree |
| Models.ModelBaseNotListed | enki_client/models.py:12 | Model is a class of the module but is not listed |
| Models.ListedByClassName | enki_client/models.py:34-79 | "WDTaggerModel" is listed, and that model's name field "WdTaggerModel" is not; for the other four catalog classes the class name equals the name field |
| Models.CatalogClassesListed | enki_client/models.py:34-79 | Every catalog class name is listed, and as many names are listed as there are catalog classes |
| Client.InferenceServerClient.constructor | enki_client/client.py:11 | A transport handle is opened on the given endpoint |
| Client.EnkiClient.constructor | enki_client/client.py:4-7 | A new client stores the key and starts unbound, with neither a model nor a handle, which is one of the two session states of Valid |
| Client.EnkiClient.UseModel | enki_client/client.py:9-11 | After binding, or rebinding, the model is the one given and the handle is a fresh one on its endpoint; the key is unchanged and the session is in one of its two states (Valid: unbound with neither model nor handle, or bound with a handle on the model's endpoint) |
| Client.EnkiClient.Infer | enki_client/client.py:13-17 | On a session in one of its two states: unbound, it fails at the first step with nothing read or sent; it has the model's encoding reads; an encoding failure, a type mismatch included, is passed on with nothing sent; when bound and the encoding succeeds, exactly that request is sent on the handle's endpoint and the result is the model's decoding of the reply, a transport failure being passed on |
| Client.UseModelScenario | tests/test_enki_client.py:11-16 | After use_model, the client holds the model and a handle on its endpoint |
| Client.InferScenario | tests/test_enki_client.py:18-33 | On a bound client whose model encodes the request, infer returns the model's decoding of the transport's reply to that request |

## Left out

- The inference SDK is not modelled: `InferInput`, `InferRequest`, `InferResponse.from_grpc`, `InferenceServerClient` and the gRPC/HTTP wire protocol. Inputs, requests and responses are plain records. The transport is a function parameter.
- Numeric tensor contents are not modelled. A data element is a string or a byte string.
- The JSON library and the image library are uninterpreted, possibly failing functions, so no JSON round trip is claimed. In particular, whether the serialiser accepts a `bytes` value for `image_data` is not decided.
- Floating-point values (`guidance_scale`, `image_strength`) are reals that are only carried through.
- Opening a file is a lookup in a map, so file-system errors other than a missing file are not distinguished.
- Models.ListModels: `inspect.getmembers` is not modelled as reflection. It is the fixed, name-sorted list of the module's top-level names, without the underscore attributes Python adds, none of which is a class.
- Models.ToInferenceRequest: the message text of the type error is not modelled, only the supported type it names.
- Client.EnkiClient.Infer: calling it while unbound raises an attribute error in Python; here it returns `Unbound` instead.
- The client's `api_key` is stored and never used, so nothing is stated about it beyond that.
- Handles replaced by a rebinding are not closed, and the model does not track that.
- The mocks of the test file are replaced by arbitrary model descriptors, requests and transports.
- `setup.py` (packaging) is not part of this model.
