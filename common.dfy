/**
 * Values shared by the request encoders, the response decoders, the model
 * registry and the client: byte strings, the Python values that the JSON
 * library sees, the error kinds the client can raise, the record shapes of
 * the inference SDK's inputs, requests and responses, and the external
 * collaborators (file system, JSON and image libraries, transport), which
 * enter the model as plain values and functions.
 */
module Common {

  type Bytes = seq<bv8>
  type Path = string

  datatype Option<+T> = None | Some(value: T)

  /** One element of a tensor's data list: a Python `str` or a `bytes` value. */
  datatype Datum = Str(text: string) | Raw(bytes: Bytes)

  /** A Python value as the JSON library serialises or parses it. A `dict`
      keeps its insertion order, which decides the order of the serialised
      members, so it is a sequence of key/value pairs. */
  datatype Value =
    | VNone
    | VBool(b: bool)
    | VInt(i: int)
    | VFloat(f: real)
    | VStr(s: string)
    | VBytes(bytes: Bytes)
    | VList(items: seq<Value>)
    | VDict(fields: seq<(string, Value)>)

  /** Stand-in for a decoded image object; the model never looks inside it. */
  datatype Image = Image(handle: nat)

  /** The request classes a model descriptor can accept (its `input_type`). */
  datatype RequestType = ImageRequestType | TextRequestType | TextToImageRequestType

  /** The kinds of failure the client lets escape to its caller. */
  datatype Error =
    | TypeMismatch(supported: RequestType) // TypeError from the model's type check
    | IOError(path: Path)                  // the referenced file cannot be read
    | IndexError                           // an expected output or data element is missing
    | EncodeError                          // the JSON library refused to serialise
    | DecodeError                          // the JSON or image library refused to parse
    | TransportError                       // the inference call itself failed
    | Unbound                              // `infer` on a client with no model bound

  datatype Result<+T> = Ok(value: T) | Err(error: Error)

  /** A result together with the paths of every file read attempted on the way. */
  datatype Traced<+T> = Traced(result: Result<T>, fileReads: seq<Path>)

  /** The local file system as the encoders see it: a missing path is an I/O error. */
  type FileSystem = map<Path, Bytes>

  function ReadFile(fs: FileSystem, path: Path): (r: Result<Bytes>)
    ensures r.Ok? <==> path in fs
    ensures r.Ok? ==> r.value == fs[path]
    ensures r.Err? ==> r.error == IOError(path)
  {
    if path in fs then Ok(fs[path]) else Err(IOError(path))
  }

  /** The foreign libraries, uninterpreted: JSON serialisation, JSON parsing
      and image decoding. Each may fail, and its failure is passed on. */
  datatype Codecs = Codecs(
    dumps: Value -> Result<Bytes>,
    loads: Datum -> Result<Value>,
    openImage: Datum -> Result<Image>)

  /** A named tensor input of the inference SDK. */
  datatype InferInput = InferInput(name: string, shape: seq<int>, dataType: string, data: seq<Datum>)

  /** A request of the inference SDK: the target model's name and its inputs. */
  datatype InferRequest = InferRequest(modelName: string, inferInputs: seq<InferInput>)

  /** One named output of an inference response, with its data elements. */
  datatype InferOutput = InferOutput(name: string, data: seq<Datum>)

  /** An inference response: its outputs in order. */
  datatype InferResponse = InferResponse(outputs: seq<InferOutput>)

  /** The remote call: the endpoint a transport handle was opened on, and the request. */
  type Transport = (string, InferRequest) -> Result<InferResponse>
}
