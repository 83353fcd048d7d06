/**
 * The three request shapes and their encoding into one named tensor input
 * (enki_client/request_types.py). Every encoder emits exactly one input of
 * shape [1] and datatype "BYTES" holding one data element; they differ in
 * the input's name and in what that element is.
 */
module RequestTypes {
  import opened Common

  /** A request as its constructor stores it; the text-to-image defaults are
      the ones written in the constructor's signature. */
  datatype Request =
    | ImageRequest(image: string)
    | TextRequest(text: string)
    | TextToImageRequest(
        prompt: string,
        referenceImage: Option<string> := None,  // the `image` argument
        imageStrength: real := 0.5,
        negPrompt: string := "",
        numInferenceSteps: int := 25,
        guidanceScale: real := 7.5,
        width: int := 1024,
        height: int := 1024,
        seed: int := 0)
  {
    /** The request's own class, compared exactly by the model's type check. */
    function Kind(): (k: RequestType)
      ensures k == ImageRequestType <==> this.ImageRequest?
      ensures k == TextRequestType <==> this.TextRequest?
      ensures k == TextToImageRequestType <==> this.TextToImageRequest?
    {
      match this
      case ImageRequest(_) => ImageRequestType
      case TextRequest(_) => TextRequestType
      case TextToImageRequest(_, _, _, _, _, _, _, _, _) => TextToImageRequestType
    }
  }

  /** `str.startswith("http")`: a literal, case-sensitive prefix test. */
  predicate IsUrl(image: string): (b: bool)
    ensures b <==> |image| >= 4 && image[..4] == "http"
  {
    "http" <= image
  }

  /** The URL test is a literal, case-sensitive prefix test: any scheme
      spelled in upper case, or without the `http` prefix, is read as a path. */
  lemma UrlTestIsCaseSensitive()
    ensures IsUrl("https://host/a.png") && IsUrl("httpfile.png")
    ensures !IsUrl("HTTPS://host/a.png") && !IsUrl("ftp://host/a.png") && !IsUrl("htt")
  {
    assert "HTTPS://host/a.png"[..4][0] == 'H';
    assert "ftp://host/a.png"[..4][0] == 'f';
  }

  /** The shape every encoder produces: one input with the given name, shape
      [1], datatype "BYTES" and a one-element data list. */
  predicate IsSingleBytesInput(input: InferInput, name: string)
  {
    input.name == name && input.shape == [1] && input.dataType == "BYTES" && |input.data| == 1
  }

  function BytesInput(name: string, datum: Datum): (input: InferInput)
    ensures IsSingleBytesInput(input, name) && input.data[0] == datum
  {
    InferInput(name, [1], "BYTES", [datum])
  }

  /** ImageRequest.create_inference_request: a URL is passed through for the
      server to download, anything else is read from the file system. */
  function EncodeImage(image: string, fs: FileSystem): (out: Traced<InferInput>)
    ensures out.fileReads == [] <==> IsUrl(image)
    ensures !IsUrl(image) ==> out.fileReads == [image]
    ensures out.result.Ok? ==> IsSingleBytesInput(out.result.value, "image")
    ensures IsUrl(image) ==> out.result.Ok? && out.result.value.data == [Str(image)]
    ensures !IsUrl(image) ==> (out.result.Ok? <==> image in fs)
    ensures !IsUrl(image) && out.result.Ok? ==> out.result.value.data == [Raw(fs[image])]
    ensures out.result.Err? ==> out.result.error == IOError(image)
  {
    if IsUrl(image) then
      Traced(Ok(BytesInput("image", Str(image))), [])
    else
      match ReadFile(fs, image)
      case Ok(contents) => Traced(Ok(BytesInput("image", Raw(contents))), [image])
      case Err(e) => Traced(Err(e), [image])
  }

  /** TextRequest.create_inference_request: the text itself, unchanged. */
  function EncodeText(text: string): (out: Traced<InferInput>)
    ensures out.fileReads == []
    ensures out.result.Ok? && IsSingleBytesInput(out.result.value, "text")
    ensures out.result.value.data == [Str(text)]
  {
    Traced(Ok(BytesInput("text", Str(text))), [])
  }

  /** Python truthiness of the optional reference image: None and "" are false. */
  predicate HasReferenceImage(image: Option<string>): (b: bool)
    ensures b <==> image.Some? && |image.value| > 0
  {
    image.Some? && image.value != ""
  }

  /** The keys of a dict, in insertion order. */
  function Keys(fields: seq<(string, Value)>): (keys: seq<string>)
    ensures |keys| == |fields|
    ensures forall i :: 0 <= i < |fields| ==> keys[i] == fields[i].0
  {
    if fields == [] then [] else [fields[0].0] + Keys(fields[1..])
  }

  /** `fields[key]`: the value a dict holds under a key. */
  function Lookup(fields: seq<(string, Value)>, key: string): Option<Value>
  {
    if fields == [] then None
    else if fields[0].0 == key then Some(fields[0].1)
    else Lookup(fields[1..], key)
  }

  /** A dict holds under a key the value of that key's first occurrence. */
  lemma {:induction false} LookupFirst(fields: seq<(string, Value)>, i: nat, key: string)
    requires i < |fields| && fields[i].0 == key
    requires forall j :: 0 <= j < i ==> fields[j].0 != key
    ensures Lookup(fields, key) == Some(fields[i].1)
  {
    if i > 0 {
      LookupFirst(fields[1..], i - 1, key);
    }
  }

  /** A dict holds nothing under a key it does not have. */
  lemma {:induction false} LookupMissing(fields: seq<(string, Value)>, key: string)
    requires key !in Keys(fields)
    ensures Lookup(fields, key) == None
  {
    if fields != [] {
      assert Keys(fields) == [fields[0].0] + Keys(fields[1..]);
      LookupMissing(fields[1..], key);
    }
  }

  /** Entries appended later do not change what an earlier key maps to. */
  lemma {:induction false} LookupPrefix(front: seq<(string, Value)>, back: seq<(string, Value)>, key: string)
    requires key in Keys(front)
    ensures Lookup(front + back, key) == Lookup(front, key)
  {
    assert front != [];
    assert (front + back)[0] == front[0];
    assert (front + back)[1..] == front[1..] + back;
    if front[0].0 != key {
      assert Keys(front) == [front[0].0] + Keys(front[1..]);
      LookupPrefix(front[1..], back, key);
    }
  }

  const BASE_KEYS: seq<string> :=
    ["prompt", "neg_prompt", "num_inference_steps", "guidance_scale", "width", "height", "seed"]

  /** The dict literal of TextToImageRequest.create_inference_request: each
      fixed key holds the field the constructor stored. */
  function BaseRecord(r: Request): (fields: seq<(string, Value)>)
    requires r.TextToImageRequest?
    ensures Keys(fields) == BASE_KEYS
    ensures Lookup(fields, "prompt") == Some(VStr(r.prompt))
    ensures Lookup(fields, "neg_prompt") == Some(VStr(r.negPrompt))
    ensures Lookup(fields, "num_inference_steps") == Some(VInt(r.numInferenceSteps))
    ensures Lookup(fields, "guidance_scale") == Some(VFloat(r.guidanceScale))
    ensures Lookup(fields, "width") == Some(VInt(r.width))
    ensures Lookup(fields, "height") == Some(VInt(r.height))
    ensures Lookup(fields, "seed") == Some(VInt(r.seed))
  {
    var fields := [
      ("prompt", VStr(r.prompt)),
      ("neg_prompt", VStr(r.negPrompt)),
      ("num_inference_steps", VInt(r.numInferenceSteps)),
      ("guidance_scale", VFloat(r.guidanceScale)),
      ("width", VInt(r.width)),
      ("height", VInt(r.height)),
      ("seed", VInt(r.seed))
    ];
    LookupFirst(fields, 0, "prompt");
    LookupFirst(fields, 1, "neg_prompt");
    LookupFirst(fields, 2, "num_inference_steps");
    LookupFirst(fields, 3, "guidance_scale");
    LookupFirst(fields, 4, "width");
    LookupFirst(fields, 5, "height");
    LookupFirst(fields, 6, "seed");
    fields
  }

  /** The record serialised for a text-to-image request, given the bytes of
      its reference image when it has one: the dict literal, unchanged, then
      `image_data` and `image_strength` inserted in that order only when
      there is an image. */
  function Parameters(r: Request, imageData: Option<Bytes>): (fields: seq<(string, Value)>)
    requires r.TextToImageRequest?
    ensures Keys(fields) == BASE_KEYS + (if imageData.Some? then ["image_data", "image_strength"] else [])
    ensures fields[..7] == BaseRecord(r)
    ensures imageData.None? ==> Lookup(fields, "image_data") == None && Lookup(fields, "image_strength") == None
    ensures imageData.Some? ==>
      fields[7..] == [("image_data", VBytes(imageData.value)), ("image_strength", VFloat(r.imageStrength))]
  {
    var data := BaseRecord(r);
    match imageData
    case None =>
      LookupMissing(data, "image_data");
      LookupMissing(data, "image_strength");
      data
    case Some(contents) =>
      data + [("image_data", VBytes(contents)), ("image_strength", VFloat(r.imageStrength))]
  }

  /** The fixed keys keep the stored values whether or not an image is added. */
  lemma ParametersKeepStoredValues(r: Request, imageData: Option<Bytes>, key: string)
    requires r.TextToImageRequest? && key in BASE_KEYS
    ensures Lookup(Parameters(r, imageData), key) == Lookup(BaseRecord(r), key)
  {
    var fields := Parameters(r, imageData);
    assert fields == BaseRecord(r) + fields[7..];
    LookupPrefix(BaseRecord(r), fields[7..], key);
  }

  /** With a reference image, the record maps `image_data` to the file's
      bytes and `image_strength` to the stored strength. */
  lemma ParametersHoldImage(r: Request, contents: Bytes)
    requires r.TextToImageRequest?
    ensures Lookup(Parameters(r, Some(contents)), "image_data") == Some(VBytes(contents))
    ensures Lookup(Parameters(r, Some(contents)), "image_strength") == Some(VFloat(r.imageStrength))
  {
    var fields := Parameters(r, Some(contents));
    assert Keys(fields)[7] == "image_data" && Keys(fields)[8] == "image_strength";
    LookupFirst(fields, 7, "image_data");
    LookupFirst(fields, 8, "image_strength");
  }

  /** Serialise a record and wrap it as the "prompt" input. */
  function Serialise(fields: seq<(string, Value)>, codecs: Codecs): (r: Result<InferInput>)
    ensures r.Ok? <==> codecs.dumps(VDict(fields)).Ok?
    ensures r.Ok? ==>
      IsSingleBytesInput(r.value, "prompt") && r.value.data == [Raw(codecs.dumps(VDict(fields)).value)]
    ensures r.Err? ==> r.error == codecs.dumps(VDict(fields)).error
  {
    match codecs.dumps(VDict(fields))
    case Ok(encoded) => Ok(BytesInput("prompt", Raw(encoded)))
    case Err(e) => Err(e)
  }

  /** TextToImageRequest.create_inference_request. A reference image is always
      opened as a file, even when it looks like a URL. */
  function EncodeTextToImage(r: Request, fs: FileSystem, codecs: Codecs): (out: Traced<InferInput>)
    requires r.TextToImageRequest?
    ensures !HasReferenceImage(r.referenceImage) ==>
      out == Traced(Serialise(Parameters(r, None), codecs), [])
    ensures HasReferenceImage(r.referenceImage) ==> out.fileReads == [r.referenceImage.value]
    ensures HasReferenceImage(r.referenceImage) && r.referenceImage.value !in fs ==>
      out.result == Err(IOError(r.referenceImage.value))
    ensures HasReferenceImage(r.referenceImage) && r.referenceImage.value in fs ==>
      out.result == Serialise(Parameters(r, Some(fs[r.referenceImage.value])), codecs)
  {
    if HasReferenceImage(r.referenceImage) then
      match ReadFile(fs, r.referenceImage.value)
      case Ok(contents) => Traced(Serialise(Parameters(r, Some(contents)), codecs), [r.referenceImage.value])
      case Err(e) => Traced(Err(e), [r.referenceImage.value])
    else
      Traced(Serialise(Parameters(r, None), codecs), [])
  }

  /** The name of the one input each request class emits. */
  function InputName(kind: RequestType): string
  {
    match kind
    case ImageRequestType => "image"
    case TextRequestType => "text"
    case TextToImageRequestType => "prompt"
  }

  /** The file a request's encoding reads, if any. */
  function ReadTarget(r: Request): Option<Path>
  {
    match r
    case ImageRequest(image) => if IsUrl(image) then None else Some(image)
    case TextRequest(_) => None
    case TextToImageRequest(_, image, _, _, _, _, _, _, _) =>
      if HasReferenceImage(image) then Some(image.value) else None
  }

  /** Request.create_inference_request, dispatched on the request's class. At
      most one file is read: the one the request names, unless it is an image
      URL; a read failure is the only error apart from the serialiser's. */
  function CreateInferenceRequest(r: Request, fs: FileSystem, codecs: Codecs): (out: Traced<InferInput>)
    ensures out.fileReads == (if ReadTarget(r).Some? then [ReadTarget(r).value] else [])
    ensures out.result.Ok? ==> IsSingleBytesInput(out.result.value, InputName(r.Kind()))
    ensures ReadTarget(r).Some? && ReadTarget(r).value !in fs ==>
      out.result == Err(IOError(ReadTarget(r).value))
    ensures out.result.Err? && !r.TextToImageRequest? ==>
      ReadTarget(r).Some? && ReadTarget(r).value !in fs
    ensures r.ImageRequest? ==> out == EncodeImage(r.image, fs)
    ensures r.TextRequest? ==> out == EncodeText(r.text)
    ensures r.TextToImageRequest? ==> out == EncodeTextToImage(r, fs, codecs)
  {
    match r
    case ImageRequest(image) => EncodeImage(image, fs)
    case TextRequest(text) => EncodeText(text)
    case TextToImageRequest(_, _, _, _, _, _, _, _, _) => EncodeTextToImage(r, fs, codecs)
  }

  /** Encoding sees the file system only through the file it reads: two file
      systems that agree on that file give the same encoding. */
  lemma EncodingReadsOnlyItsTarget(r: Request, fs1: FileSystem, fs2: FileSystem, codecs: Codecs)
    requires ReadTarget(r).Some? ==>
      var p := ReadTarget(r).value; (p in fs1 <==> p in fs2) && (p in fs1 ==> fs1[p] == fs2[p])
    ensures CreateInferenceRequest(r, fs1, codecs) == CreateInferenceRequest(r, fs2, codecs)
  {
  }

  /** Omitted constructor arguments take the values in the signature, and
      the prompt is stored unchanged. */
  lemma TextToImageDefaults(prompt: string)
    ensures var r := TextToImageRequest(prompt);
      && r.prompt == prompt && r.referenceImage == None && r.imageStrength == 0.5
      && r.negPrompt == "" && r.numInferenceSteps == 25 && r.guidanceScale == 7.5
      && r.width == 1024 && r.height == 1024 && r.seed == 0
  {
  }

  /** Unlike an image request, a text-to-image request opens its reference
      image as a file even when the reference starts with "http". */
  lemma ReferenceUrlIsOpenedAsFile(prompt: string, url: string, fs: FileSystem, codecs: Codecs)
    requires IsUrl(url)
    ensures EncodeImage(url, fs).fileReads == []
    ensures EncodeTextToImage(TextToImageRequest(prompt, Some(url)), fs, codecs).fileReads == [url]
    ensures url !in fs ==>
      EncodeTextToImage(TextToImageRequest(prompt, Some(url)), fs, codecs).result == Err(IOError(url))
  {
  }
}
