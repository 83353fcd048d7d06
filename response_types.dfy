/**
 * Response selection (enki_client/response_types.py): each decoder reads
 * fixed positions of the data list of the FIRST output and hands what it
 * finds to a foreign decoder. A missing output or element is an error,
 * never an empty value.
 */
module ResponseTypes {
  import opened Common

  /** The response classes a model descriptor can name (its `output_type`). */
  datatype ResponseType = ObjectResponse | ImageResponse | TextToImageResponse | EmbeddingResponse

  /** What create_response returns, per response class. */
  datatype Response =
    | ObjectValue(obj: Value)
    | ImageValue(image: Image)
    | TextToImageValue(image: Image, metadata: Value)
    | EmbeddingValue(embedding: Datum)

  /** `outputs[0].data[k]`: only the first output is ever consulted. */
  function DataAt(response: InferResponse, k: nat): (d: Result<Datum>)
    ensures d.Ok? <==> |response.outputs| > 0 && k < |response.outputs[0].data|
    ensures d.Ok? ==> d.value == response.outputs[0].data[k]
    ensures d.Err? ==> d.error == IndexError
  {
    if |response.outputs| == 0 || k >= |response.outputs[0].data| then Err(IndexError)
    else Ok(response.outputs[0].data[k])
  }

  /** ObjectResponse.create_response: element 0 parsed as JSON. */
  function DecodeObject(response: InferResponse, codecs: Codecs): (r: Result<Response>)
    ensures DataAt(response, 0).Err? ==> r == Err(IndexError)
    ensures DataAt(response, 0).Ok? ==> match codecs.loads(DataAt(response, 0).value)
      case Ok(v) => r == Ok(ObjectValue(v))
      case Err(e) => r == Err(e)
  {
    match DataAt(response, 0)
    case Err(e) => Err(e)
    case Ok(d) =>
      match codecs.loads(d)
      case Ok(v) => Ok(ObjectValue(v))
      case Err(e) => Err(e)
  }

  /** ImageResponse.create_response: element 0 decoded as an image. */
  function DecodeImage(response: InferResponse, codecs: Codecs): (r: Result<Response>)
    ensures DataAt(response, 0).Err? ==> r == Err(IndexError)
    ensures DataAt(response, 0).Ok? ==> match codecs.openImage(DataAt(response, 0).value)
      case Ok(img) => r == Ok(ImageValue(img))
      case Err(e) => r == Err(e)
  {
    match DataAt(response, 0)
    case Err(e) => Err(e)
    case Ok(d) =>
      match codecs.openImage(d)
      case Ok(img) => Ok(ImageValue(img))
      case Err(e) => Err(e)
  }

  /** TextToImageResponse.create_response: the image from element 0 and the
      metadata parsed from element 1 of the same first output. The image is
      decoded before element 1 is looked up, as the dict literal evaluates. */
  function DecodeTextToImage(response: InferResponse, codecs: Codecs): (r: Result<Response>)
    ensures r.Ok? <==>
      && DataAt(response, 0).Ok? && codecs.openImage(DataAt(response, 0).value).Ok?
      && DataAt(response, 1).Ok? && codecs.loads(DataAt(response, 1).value).Ok?
    ensures r.Ok? ==> r.value == TextToImageValue(
      codecs.openImage(DataAt(response, 0).value).value,
      codecs.loads(DataAt(response, 1).value).value)
    ensures DataAt(response, 0).Err? ==> r == Err(IndexError)
    ensures DataAt(response, 0).Ok? && codecs.openImage(DataAt(response, 0).value).Err? ==>
      r == Err(codecs.openImage(DataAt(response, 0).value).error)
    ensures (DataAt(response, 0).Ok? && codecs.openImage(DataAt(response, 0).value).Ok? &&
             DataAt(response, 1).Err?) ==> r == Err(IndexError)
    ensures (DataAt(response, 0).Ok? && codecs.openImage(DataAt(response, 0).value).Ok? &&
             DataAt(response, 1).Ok? && codecs.loads(DataAt(response, 1).value).Err?) ==>
      r == Err(codecs.loads(DataAt(response, 1).value).error)
  {
    match DataAt(response, 0)
    case Err(e) => Err(e)
    case Ok(d0) =>
      match codecs.openImage(d0)
      case Err(e) => Err(e)
      case Ok(img) =>
        match DataAt(response, 1)
        case Err(e) => Err(e)
        case Ok(d1) =>
          match codecs.loads(d1)
          case Err(e) => Err(e)
          case Ok(meta) => Ok(TextToImageValue(img, meta))
  }

  /** EmbeddingResponse.create_response: element 0, unchanged. */
  function DecodeEmbedding(response: InferResponse): (r: Result<Response>)
    ensures r.Ok? <==> |response.outputs| > 0 && |response.outputs[0].data| > 0
    ensures r.Ok? ==> r.value == EmbeddingValue(response.outputs[0].data[0])
    ensures r.Err? ==> r.error == IndexError
  {
    match DataAt(response, 0)
    case Err(e) => Err(e)
    case Ok(d) => Ok(EmbeddingValue(d))
  }

  /** `output_type(response).create_response()`. */
  function CreateResponse(kind: ResponseType, response: InferResponse, codecs: Codecs): (r: Result<Response>)
    ensures r.Ok? && kind == ObjectResponse ==> r.value.ObjectValue?
    ensures r.Ok? && kind == ImageResponse ==> r.value.ImageValue?
    ensures r.Ok? && kind == TextToImageResponse ==> r.value.TextToImageValue?
    ensures r.Ok? && kind == EmbeddingResponse ==> r.value.EmbeddingValue?
    ensures DataAt(response, 0).Err? ==> r == Err(IndexError)
  {
    match kind
    case ObjectResponse => DecodeObject(response, codecs)
    case ImageResponse => DecodeImage(response, codecs)
    case TextToImageResponse => DecodeTextToImage(response, codecs)
    case EmbeddingResponse => DecodeEmbedding(response)
  }

  /** How many leading elements of the first output a decoder looks at. */
  function Positions(kind: ResponseType): nat
  {
    if kind == TextToImageResponse then 2 else 1
  }

  /** Decoding looks at nothing but its positions of the first output: two
      responses that agree there (present or missing alike) decode alike,
      whatever their other outputs and later elements hold. */
  lemma DecodingReadsOnlyItsPositions(kind: ResponseType, a: InferResponse, b: InferResponse, codecs: Codecs)
    requires forall k :: 0 <= k < Positions(kind) ==> DataAt(a, k) == DataAt(b, k)
    ensures CreateResponse(kind, a, codecs) == CreateResponse(kind, b, codecs)
  {
    assert DataAt(a, 0) == DataAt(b, 0);
    if kind == TextToImageResponse {
      assert DataAt(a, 1) == DataAt(b, 1);
    }
  }

  /** A response with no outputs, or whose first output has no data, fails
      with an index error under every decoder; it never yields an empty value. */
  lemma MissingFirstElementFails(kind: ResponseType, response: InferResponse, codecs: Codecs)
    requires |response.outputs| == 0 || |response.outputs[0].data| == 0
    ensures CreateResponse(kind, response, codecs) == Err(IndexError)
  {
  }

  /** A text-to-image response holding only an image element fails with an
      index error once the image has decoded: the metadata is not taken from
      a second output. */
  lemma TextToImageNeedsSecondElement(response: InferResponse, codecs: Codecs)
    requires |response.outputs| > 0 && |response.outputs[0].data| == 1
    requires codecs.openImage(response.outputs[0].data[0]).Ok?
    ensures DecodeTextToImage(response, codecs) == Err(IndexError)
  {
  }
}
