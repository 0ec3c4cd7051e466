/**
 * `categoryService` of services/categoryService.ts: list, fetch, create and update
 * categories through the `api` pipeline. Create and update send a multipart `FormData`
 * built by conditional `append` calls; every call hands back the envelope's `data`.
 */
module CategoryService {
  import opened Wrappers
  import opened Http
  import opened Storage
  import opened Text
  import opened Api

  datatype CreateCategoryBody = CreateCategoryBody(name: string, image: Option<FileData>)

  datatype UpdateCategoryBody = UpdateCategoryBody(id: string, name: Option<string>, image: Option<FileData>)

  /** The per-call `Content-Type` overrides the instance's JSON default. */
  const FormHeaders: map<string, string> := DefaultHeaders[ContentType := MultipartType]

  /** The parts `createCategory` appends: always the name, then the image when there is one. */
  function CreateParts(body: CreateCategoryBody): (parts: seq<FormPart>)
    ensures |parts| >= 1 && parts[0] == TextField("name", body.name)
    ensures |parts| == 2 <==> body.image.Some?
    ensures |parts| <= 2
    ensures body.image.Some? ==> parts[1] == FileField("image", body.image.value)
  {
    [TextField("name", body.name)] + (if body.image.Some? then [FileField("image", body.image.value)] else [])
  }

  /** The parts `updateCategory` appends: the name when it is a non-empty string, the image when present. */
  function UpdateParts(body: UpdateCategoryBody): (parts: seq<FormPart>)
    ensures |parts| == (if Truthy(body.name) then 1 else 0) + (if body.image.Some? then 1 else 0)
    ensures Truthy(body.name) <==> |parts| > 0 && parts[0].TextField?
    ensures Truthy(body.name) ==> parts[0] == TextField("name", body.name.value)
    ensures body.image.Some? <==> |parts| > 0 && parts[|parts| - 1].FileField?
    ensures body.image.Some? ==> parts[|parts| - 1] == FileField("image", body.image.value)
  {
    (if Truthy(body.name) then [TextField("name", body.name.value)] else [])
      + (if body.image.Some? then [FileField("image", body.image.value)] else [])
  }

  /** An update with a non-empty name sends exactly the form a create with that name and image sends. */
  lemma UpdateWithNameMatchesCreate(id: string, name: string, image: Option<FileData>)
    requires name != ""
    ensures UpdateParts(UpdateCategoryBody(id, Some(name), image)) == CreateParts(CreateCategoryBody(name, image))
  {
  }

  /** An update with neither a non-empty name nor an image sends an empty form. */
  lemma UpdateWithNothingIsEmpty(id: string, name: Option<string>)
    requires !Truthy(name)
    ensures UpdateParts(UpdateCategoryBody(id, name, None)) == []
  {
  }

  function ListRequest(): Request {
    Request(ApiInstance, Get, "/categories", DefaultHeaders, NoBody, false)
  }

  function FetchRequest(id: string): Request {
    Request(ApiInstance, Get, "/categories/" + id, DefaultHeaders, NoBody, false)
  }

  function CreateRequest(body: CreateCategoryBody): Request {
    Request(ApiInstance, Post, "/categories", FormHeaders, FormBody(CreateParts(body)), false)
  }

  function UpdateRequest(body: UpdateCategoryBody): Request {
    Request(ApiInstance, Put, "/categories/" + body.id, FormHeaders, FormBody(UpdateParts(body)), false)
  }

  /** `response.data.data`: the payload of a resolved call; a rejection propagates. */
  function Unwrap(r: Result<Response, Error>): (p: Result<Payload, Error>)
    ensures p.Success? <==> r.Success?
    ensures r.Success? ==> p.value == r.value.body.data
    ensures r.Failure? ==> p.error == r.error
  {
    match r
    case Success(resp) => Success(resp.body.data)
    case Failure(e) => Failure(e)
  }

  /**
   * Listing the categories when the first answer is not a 401: the call resolves exactly when
   * a 2xx (or status 0) response arrived, with that response's `data`; otherwise it rejects
   * with an HTTP or network error; the store is only read.
   */
  lemma ListingWithoutRefresh(w: World, base: string)
    requires AccessTokenKey !in w.failing
    requires var o := NextOutcome(w.script); !(o.Received? && o.response.status == 401)
    ensures var run := Dispatch(w, ListRequest(), base);
      var p := Unwrap(run.result);
      var o := NextOutcome(w.script);
      && run.world.entries == w.entries
      && (p.Success? <==> o.Received? && IsSuccess(o.response.status))
      && (p.Success? ==> p.value == o.response.body.data)
      && (p.Failure? ==> p.error.HttpError? || p.error.NetworkError?)
  {
    var o := NextOutcome(w.script);
    if o.Received? && IsSuccess(o.response.status) {
      SuccessPassesThrough(w, ListRequest(), base);
    } else {
      OtherFailuresPassThrough(w, ListRequest(), base);
    }
  }

  /** A `FormData` object: the parts appended so far, in order. */
  class FormData {
    var parts: seq<FormPart>

    constructor ()
      ensures parts == []
    {
      parts := [];
    }

    method Append(part: FormPart)
      modifies this
      ensures parts == old(parts) + [part]
    {
      parts := parts + [part];
    }
  }

  method BuildCreateForm(body: CreateCategoryBody) returns (form: FormData)
    ensures fresh(form) && form.parts == CreateParts(body)
  {
    form := new FormData();
    form.Append(TextField("name", body.name));
    if body.image.Some? {
      var image := body.image.value;
      form.Append(FileField("image", FileData(image.uri, image.name, image.mime)));
    }
  }

  method BuildUpdateForm(body: UpdateCategoryBody) returns (form: FormData)
    ensures fresh(form) && form.parts == UpdateParts(body)
  {
    form := new FormData();
    if Truthy(body.name) {
      form.Append(TextField("name", body.name.value));
    }
    if body.image.Some? {
      var image := body.image.value;
      form.Append(FileField("image", FileData(image.uri, image.name, image.mime)));
    }
  }

  class CategoryClient {
    const api: ApiClient

    constructor (api: ApiClient)
      ensures this.api == api
    {
      this.api := api;
    }

    method GetCategories() returns (r: Result<Payload, Error>)
      modifies api.store, api.transport
      ensures var run := Dispatch(old(api.State()), ListRequest(), api.baseUrl);
        api.State() == run.world && r == Unwrap(run.result)
    {
      var response := api.Request(ListRequest());
      r := Unwrap(response);
    }

    method GetCategoryById(id: string) returns (r: Result<Payload, Error>)
      modifies api.store, api.transport
      ensures var run := Dispatch(old(api.State()), FetchRequest(id), api.baseUrl);
        api.State() == run.world && r == Unwrap(run.result)
    {
      var response := api.Request(FetchRequest(id));
      r := Unwrap(response);
    }

    method CreateCategory(body: CreateCategoryBody) returns (r: Result<Payload, Error>)
      modifies api.store, api.transport
      ensures var run := Dispatch(old(api.State()), CreateRequest(body), api.baseUrl);
        api.State() == run.world && r == Unwrap(run.result)
    {
      var form := BuildCreateForm(body);
      var response := api.Request(Request(ApiInstance, Post, "/categories", FormHeaders, FormBody(form.parts), false));
      r := Unwrap(response);
    }

    method UpdateCategory(body: UpdateCategoryBody) returns (r: Result<Payload, Error>)
      modifies api.store, api.transport
      ensures var run := Dispatch(old(api.State()), UpdateRequest(body), api.baseUrl);
        api.State() == run.world && r == Unwrap(run.result)
    {
      var form := BuildUpdateForm(body);
      var response := api.Request(Request(ApiInstance, Put, "/categories/" + body.id, FormHeaders, FormBody(form.parts), false));
      r := Unwrap(response);
    }
  }
}
