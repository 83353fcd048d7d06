/**
 * The model registry and its type-checked dispatch (enki_client/models.py):
 * a closed catalog of five descriptors, each naming the request class it
 * accepts, the response class it decodes with and the endpoint it is served
 * on, and `list_models`, which collects the names of the module's model
 * classes.
 */
module Models {
  import opened Common
  import opened RequestTypes
  import opened ResponseTypes

  /** A `Model` instance: its fields are set once, in the constructor. */
  datatype ModelDescriptor = ModelDescriptor(
    name: string,
    inputType: RequestType,
    outputType: ResponseType,
    endpoint: string)

  /** Model.to_inference_request: the request's class must be exactly the
      descriptor's input type. On a match the request's own encoding becomes
      the one input of a request addressed by the model's name; on a mismatch
      a TypeError is raised before encoding, so no file is read. */
  function ToInferenceRequest(m: ModelDescriptor, r: Request, fs: FileSystem, codecs: Codecs)
    : (out: Traced<InferRequest>)
    ensures out.result.Ok? ==> r.Kind() == m.inputType
    ensures r.Kind() != m.inputType ==> out == Traced(Err(TypeMismatch(m.inputType)), [])
    ensures r.Kind() == m.inputType ==>
      var enc := CreateInferenceRequest(r, fs, codecs);
      && out.fileReads == enc.fileReads
      && (enc.result.Ok? ==> out.result == Ok(InferRequest(m.name, [enc.result.value])))
      && (enc.result.Err? ==> out.result == Err(enc.result.error))
  {
    if r.Kind() == m.inputType then
      var enc := CreateInferenceRequest(r, fs, codecs);
      match enc.result
      case Ok(input) => Traced(Ok(InferRequest(m.name, [input])), enc.fileReads)
      case Err(e) => Traced(Err(e), enc.fileReads)
    else
      Traced(Err(TypeMismatch(m.inputType)), [])
  }

  /** Model.to_response: decode with exactly the descriptor's output type. */
  function ToResponse(m: ModelDescriptor, response: InferResponse, codecs: Codecs): (r: Result<Response>)
    ensures m.outputType == ObjectResponse ==> r == DecodeObject(response, codecs)
    ensures m.outputType == ImageResponse ==> r == DecodeImage(response, codecs)
    ensures m.outputType == TextToImageResponse ==> r == DecodeTextToImage(response, codecs)
    ensures m.outputType == EmbeddingResponse ==> r == DecodeEmbedding(response)
  {
    CreateResponse(m.outputType, response, codecs)
  }

  /** Decoding depends on nothing of the descriptor but its output type: not
      its name, its input type or its endpoint. */
  lemma ToResponseOnlyByOutputType(m1: ModelDescriptor, m2: ModelDescriptor, response: InferResponse, codecs: Codecs)
    requires m1.outputType == m2.outputType
    ensures ToResponse(m1, response, codecs) == ToResponse(m2, response, codecs)
  {
  }

  function WDTaggerModel(): ModelDescriptor
  {
    ModelDescriptor("WdTaggerModel", ImageRequestType, ObjectResponse, "localhost:8081")
  }

  function TextToImageModel(): ModelDescriptor
  {
    ModelDescriptor("TextToImageModel", TextToImageRequestType, TextToImageResponse, "localhost:8081")
  }

  function ImageToImageModel(): ModelDescriptor
  {
    ModelDescriptor("ImageToImageModel", ImageRequestType, TextToImageResponse, "localhost:8083")
  }

  function ImageEmbeddingModel(): ModelDescriptor
  {
    ModelDescriptor("ImageEmbeddingModel", ImageRequestType, EmbeddingResponse, "localhost:8080")
  }

  function ImageClassificationModel(): ModelDescriptor
  {
    ModelDescriptor("ImageClassificationModel", ImageRequestType, ObjectResponse, "localhost:8080")
  }

  /** The five model classes with their descriptors, in definition order. */
  function Catalog(): seq<(string, ModelDescriptor)>
  {
    [ ("WDTaggerModel", WDTaggerModel()),
      ("TextToImageModel", TextToImageModel()),
      ("ImageToImageModel", ImageToImageModel()),
      ("ImageEmbeddingModel", ImageEmbeddingModel()),
      ("ImageClassificationModel", ImageClassificationModel()) ]
  }

  /** The catalog table: per class, its input type, output type and endpoint. */
  lemma CatalogTable()
    ensures |Catalog()| == 5
    ensures WDTaggerModel().inputType == ImageRequestType && WDTaggerModel().outputType == ObjectResponse
    ensures WDTaggerModel().endpoint == "localhost:8081"
    ensures TextToImageModel().inputType == TextToImageRequestType
    ensures TextToImageModel().outputType == TextToImageResponse
    ensures TextToImageModel().endpoint == "localhost:8081"
    ensures ImageToImageModel().inputType == ImageRequestType
    ensures ImageToImageModel().outputType == TextToImageResponse
    ensures ImageToImageModel().endpoint == "localhost:8083"
    ensures ImageEmbeddingModel().inputType == ImageRequestType
    ensures ImageEmbeddingModel().outputType == EmbeddingResponse
    ensures ImageEmbeddingModel().endpoint == "localhost:8080"
    ensures ImageClassificationModel().inputType == ImageRequestType
    ensures ImageClassificationModel().outputType == ObjectResponse
    ensures ImageClassificationModel().endpoint == "localhost:8080"
    ensures forall i :: 0 <= i < |Catalog()| ==> Catalog()[i].1.endpoint != ""
  {
  }

  /** No catalog model accepts a text request: sending one through any of
      them is rejected with a type error, with no file read. */
  lemma TextRequestsAreRejected(i: nat, text: string, fs: FileSystem, codecs: Codecs)
    requires i < |Catalog()|
    ensures Catalog()[i].1.inputType != TextRequestType
    ensures ToInferenceRequest(Catalog()[i].1, TextRequest(text), fs, codecs)
         == Traced(Err(TypeMismatch(Catalog()[i].1.inputType)), [])
  {
  }

  // ---- list_models --------------------------------------------------------

  /** A class object found among the module's members. A class carries its
      own `__name__`, which need not be the name it is bound to. */
  datatype ClassObject =
    | ModelBase                                                  // `Model` itself
    | ModelSubclass(className: string, descriptor: ModelDescriptor) // a catalog class
    | ForeignClass(className: string)                            // an imported class
  {
    /** The class's `__name__`. */
    function Name(): string
    {
      match this
      case ModelBase => "Model"
      case ModelSubclass(n, _) => n
      case ForeignClass(n) => n
    }
  }

  /** What a module-level name is bound to. */
  datatype MemberValue = ClassValue(cls: ClassObject) | ModuleValue | FunctionValue

  datatype Member = Member(name: string, value: MemberValue)

  /** `inspect.isclass(obj)` */
  predicate IsClass(v: MemberValue)
  {
    v.ClassValue?
  }

  /** `issubclass(obj, Model)`, which holds of `Model` itself too. */
  predicate IsSubclassOfModel(v: MemberValue)
    requires IsClass(v)
  {
    v.cls.ModelBase? || v.cls.ModelSubclass?
  }

  /** The filter in list_models: since `issubclass` holds of `Model` itself,
      excluding `Model` leaves exactly its proper subclasses. */
  predicate IsListed(v: MemberValue): (b: bool)
    ensures b <==> v.ClassValue? && v.cls.ModelSubclass?
  {
    IsClass(v) && IsSubclassOfModel(v) && v != ClassValue(ModelBase)
  }

  /** The class object of catalog entry i, carrying its class name. */
  function CatalogClass(i: nat): MemberValue
    requires i < |Catalog()|
  {
    ClassValue(ModelSubclass(Catalog()[i].0, Catalog()[i].1))
  }

  /** The module's top-level names as `inspect.getmembers` yields them,
      sorted by name (upper case before lower case). */
  function ModuleMembers(): seq<Member>
  {
    [ Member(Catalog()[4].0, CatalogClass(4)),
      Member(Catalog()[3].0, CatalogClass(3)),
      Member(Catalog()[2].0, CatalogClass(2)),
      Member("InferRequest", ClassValue(ForeignClass("InferRequest"))),
      Member("Model", ClassValue(ModelBase)),
      Member(Catalog()[1].0, CatalogClass(1)),
      Member(Catalog()[0].0, CatalogClass(0)),
      Member("inspect", ModuleValue),
      Member("list_models", FunctionValue),
      Member("request_types", ModuleValue),
      Member("response_types", ModuleValue),
      Member("sys", ModuleValue) ]
  }

  /** A member the filter keeps, whose class is named n. */
  predicate ListedAs(v: MemberValue, n: string)
  {
    IsListed(v) && v.cls.className == n
  }

  /** The `__name__`s of the classes the filter keeps from position k on, in
      member order; the names the classes are bound to are not used. */
  function ListedFrom(members: seq<Member>, k: nat): (names: seq<string>)
    requires k <= |members|
    decreases |members| - k
  {
    if k == |members| then []
    else (if IsListed(members[k].value) then [members[k].value.cls.className] else [])
         + ListedFrom(members, k + 1)
  }

  /** The class names the filter keeps, in member order. */
  function ListedNames(members: seq<Member>): seq<string>
  {
    ListedFrom(members, 0)
  }

  /** The loop of list_models over a given member list: one pass, appending
      the `__name__` of every class that is a proper subclass of `Model`. */
  method CollectListed(members: seq<Member>) returns (classes: seq<string>)
    ensures classes == ListedNames(members)
  {
    classes := [];
    var i := 0;
    while i < |members|
      invariant 0 <= i <= |members|
      invariant classes + ListedFrom(members, i) == ListedNames(members)
    {
      var obj := members[i];
      if IsClass(obj.value) && IsSubclassOfModel(obj.value) && obj.value != ClassValue(ModelBase) {
        classes := classes + [obj.value.cls.className];
      }
      i := i + 1;
    }
  }

  /** The five class names list_models returns for this module, by name. */
  function ExpectedModelNames(): seq<string>
  {
    ["ImageClassificationModel", "ImageEmbeddingModel", "ImageToImageModel",
     "TextToImageModel", "WDTaggerModel"]
  }

  /** list_models on this module's own members. */
  method ListModels() returns (classes: seq<string>)
    ensures classes == ListedNames(ModuleMembers())
    ensures classes == ExpectedModelNames()
  {
    classes := CollectListed(ModuleMembers());
    ListedModuleNames();
  }

  /** The members from position 7 on are modules and a function. */
  lemma ListedTail()
    ensures ListedFrom(ModuleMembers(), 7) == []
  {
    var m := ModuleMembers();
    assert ListedFrom(m, 11) == [];
    assert ListedFrom(m, 10) == [];
    assert ListedFrom(m, 9) == [];
    assert ListedFrom(m, 8) == [];
  }

  /** Positions 3 to 6: a foreign class, `Model` itself and two subclasses. */
  lemma ListedMiddle()
    ensures ListedFrom(ModuleMembers(), 3) == ["TextToImageModel", "WDTaggerModel"]
  {
    var m := ModuleMembers();
    ListedTail();
    assert ListedFrom(m, 6) == ["WDTaggerModel"];
    assert ListedFrom(m, 5) == ["TextToImageModel", "WDTaggerModel"];
    assert ListedFrom(m, 4) == ListedFrom(m, 5);
  }

  /** What list_models returns for this module. */
  lemma ListedModuleNames()
    ensures ListedNames(ModuleMembers()) == ExpectedModelNames()
  {
    var m := ModuleMembers();
    ListedMiddle();
    assert ListedFrom(m, 2) == ["ImageToImageModel", "TextToImageModel", "WDTaggerModel"];
    assert ListedFrom(m, 1) == ["ImageEmbeddingModel", "ImageToImageModel", "TextToImageModel", "WDTaggerModel"];
  }

  /** A name is kept from position k on exactly when some listed member
      from k on is a class of that name. */
  lemma {:induction false} ListedFromExact(members: seq<Member>, k: nat, n: string)
    requires k <= |members|
    ensures n in ListedFrom(members, k) <==> exists i :: k <= i < |members| && ListedAs(members[i].value, n)
    decreases |members| - k
  {
    if k < |members| {
      var tail := ListedFrom(members, k + 1);
      ListedFromExact(members, k + 1, n);
      var head: seq<string> := if IsListed(members[k].value) then [members[k].value.cls.className] else [];
      assert ListedFrom(members, k) == head + tail;
      assert n in head <==> ListedAs(members[k].value, n);
      if n in ListedFrom(members, k) {
        if n !in head {
          assert n in tail;
          var i :| k + 1 <= i < |members| && ListedAs(members[i].value, n);
          assert k <= i;
        }
      } else {
        forall i | k <= i < |members| ensures !ListedAs(members[i].value, n) {
          if i > k {
            assert n !in tail;
          }
        }
      }
    }
  }

  /** Every listed name is the class name of a listed member, and back. */
  lemma ListedNamesExact(members: seq<Member>, n: string)
    ensures n in ListedNames(members) <==> exists i :: 0 <= i < |members| && ListedAs(members[i].value, n)
  {
    ListedFromExact(members, 0, n);
  }

  /** Listed classes with distinct class names give a listing without repeats. */
  lemma {:induction false} ListedFromDistinct(members: seq<Member>, k: nat)
    requires k <= |members|
    requires forall i, j :: 0 <= i < j < |members| && IsListed(members[i].value) && IsListed(members[j].value) ==>
      members[i].value.cls.className != members[j].value.cls.className
    ensures var names := ListedFrom(members, k);
      forall i, j :: 0 <= i < j < |names| ==> names[i] != names[j]
    decreases |members| - k
  {
    if k < |members| {
      var tail := ListedFrom(members, k + 1);
      ListedFromDistinct(members, k + 1);
      var names := ListedFrom(members, k);
      if IsListed(members[k].value) {
        var n := members[k].value.cls.className;
        ListedFromExact(members, k + 1, n);
        assert n !in tail;
        assert names == [n] + tail;
        forall i, j | 0 <= i < j < |names| ensures names[i] != names[j] {
          assert names[j] == tail[j - 1];
          if i > 0 {
            assert names[i] == tail[i - 1];
          }
        }
      }
    }
  }

  /** list_models repeats no name as long as no two listed classes share a
      class name. Distinct bindings do not suffice: a class bound under two
      names is listed twice (see AliasListedTwice). */
  lemma ListedNamesDistinct(members: seq<Member>)
    requires forall i, j :: 0 <= i < j < |members| && IsListed(members[i].value) && IsListed(members[j].value) ==>
      members[i].value.cls.className != members[j].value.cls.className
    ensures var names := ListedNames(members);
      forall i, j :: 0 <= i < j < |names| ==> names[i] != names[j]
  {
    assert ListedNames(members) == ListedFrom(members, 0);
    ListedFromDistinct(members, 0);
  }

  /** The listing holds each class's `__name__`, not its binding: one class
      bound under two names is listed twice under its own name. */
  lemma AliasListedTwice()
    ensures var cls := ClassValue(ModelSubclass("WDTaggerModel", WDTaggerModel()));
      ListedNames([Member("A", cls), Member("B", cls)]) == ["WDTaggerModel", "WDTaggerModel"]
  {
    var cls := ClassValue(ModelSubclass("WDTaggerModel", WDTaggerModel()));
    var m := [Member("A", cls), Member("B", cls)];
    assert ListedFrom(m, 1) == ["WDTaggerModel"];
  }

  /** In this module every class is bound under its own `__name__`. */
  lemma ModuleBindsClassesByName()
    ensures forall i :: 0 <= i < |ModuleMembers()| && ModuleMembers()[i].value.ClassValue? ==>
      ModuleMembers()[i].name == ModuleMembers()[i].value.cls.Name()
  {
  }

  /** `Model` itself is a member of the module but is never listed. */
  lemma ModelBaseNotListed()
    ensures Member("Model", ClassValue(ModelBase)) in ModuleMembers()
    ensures "Model" !in ExpectedModelNames()
  {
    assert ModuleMembers()[4] == Member("Model", ClassValue(ModelBase));
  }

  /** The names listed are class names, not the models' `name` fields:
      "WDTaggerModel" is listed although that model's `name` is "WdTaggerModel";
      for the other four catalog classes the two coincide. */
  lemma ListedByClassName()
    ensures "WDTaggerModel" in ExpectedModelNames()
    ensures WDTaggerModel().name !in ExpectedModelNames()
    ensures Catalog()[0].0 != Catalog()[0].1.name
    ensures forall i :: 1 <= i < |Catalog()| ==> Catalog()[i].0 == Catalog()[i].1.name
  {
    assert ExpectedModelNames()[4] == "WDTaggerModel";
  }

  /** Every catalog class is listed, and the listing holds nothing else. */
  lemma CatalogClassesListed()
    ensures forall i :: 0 <= i < |Catalog()| ==> Catalog()[i].0 in ExpectedModelNames()
    ensures |ExpectedModelNames()| == |Catalog()|
  {
    var c := Catalog();
    var e := ExpectedModelNames();
    forall i | 0 <= i < |c| ensures c[i].0 in e {
      assert c[i].0 == e[4 - i];
    }
  }
}
