/** The category resource client (src/services/categoryService.js): a fixed table of
    methods and paths on the shared client. */
module CategoryService {
  import opened Text
  import opened Wrappers
  import opened Catalog
  import opened Api

  const ListPath: string := "/categories"
  const ItemPrefix: string := "/categories/"

  const GetAllRequest: Request := Request("get", ListPath, NoBody)

  /** `GET /…/:id`: the path names the record asked for. */
  function GetByIdRequest(id: Id): (r: Request)
    ensures r.verb == "get" && r.body == NoBody && PathId(ItemPrefix, r.path) == Some(id)
  {
    Request("get", ItemPath(ItemPrefix, id), NoBody)
  }

  /** `POST /categories` with the fields as its body. */
  function CreateRequest(fields: CategoryFields): (r: Request)
    ensures r.verb == "post" && r.path == ListPath && r.body == CategoryBody(fields)
  {
    Request("post", ListPath, CategoryBody(fields))
  }

  /** `PUT /categories/:id` with the fields as its body. */
  function UpdateRequest(id: Id, fields: CategoryFields): (r: Request)
    ensures r.verb == "put" && r.body == CategoryBody(fields) && PathId(ItemPrefix, r.path) == Some(id)
  {
    Request("put", ItemPath(ItemPrefix, id), CategoryBody(fields))
  }

  /** `DELETE /…/:id`: the path names the record deleted. */
  function DeleteRequest(id: Id): (r: Request)
    ensures r.verb == "delete" && r.body == NoBody && PathId(ItemPrefix, r.path) == Some(id)
  {
    Request("delete", ItemPath(ItemPrefix, id), NoBody)
  }

  /** The writes carry the API key and the reads do not. */
  lemma ApiKeyOnWritesOnly(id: Id, fields: CategoryFields)
    ensures IsWriteMethod(CreateRequest(fields).verb)
    ensures IsWriteMethod(UpdateRequest(id, fields).verb)
    ensures IsWriteMethod(DeleteRequest(id).verb)
    ensures !IsWriteMethod(GetAllRequest.verb) && !IsWriteMethod(GetByIdRequest(id).verb)
  {
    WriteMethodExamples();
    ReadMethodExamples();
  }
}
