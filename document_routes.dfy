/** The document endpoints. Listing reads a user's documents; "upload" builds a
    metadata record and stores nothing. */
module DocumentRoutes {
  import opened Collections
  import opened Types
  import opened Text
  import opened Http
  import opened MockData

  const InvalidUserId := "Неверный ID пользователя"
  const UserNotFound := "Пользователь не найден"
  const UploadPrefix := "/uploads/"
  const NameAndTypeRequired := "Название и тип документа обязательны"

  /** The record POST /users/:id/documents answers with. Its `docType` is whatever
      non-empty text the client sent. */
  datatype UploadedDocument = UploadedDocument(id: int, name: string, docType: string,
                                               uploadedAt: string, url: string)

  /** GET /users/:id/documents: 400 when the id does not parse, 404 for an unknown
      user, else that user's documents as stored. */
  function GetDocuments(users: seq<User>, id: Option<int>): (r: Reply<seq<Document>>)
    ensures id.None? ==> r == Fail(400, InvalidUserId)
    ensures r.Fail? <==> id.None? || forall u :: u in users ==> u.id != id.value
    ensures id.Some? && r.Fail? ==> r == Fail(404, UserNotFound)
    ensures r.Ok? ==> r.code == 200 && exists u :: u in users && u.id == id.value && r.data == u.documents
    ensures r.Ok? ==> r.data == FindUserById(users, id.value).value.documents
  {
    if id.None? then Fail(400, InvalidUserId)
    else match FindUserById(users, id.value)
      case None => Fail(404, UserNotFound)
      case Some(u) => Ok(200, u.documents)
  }

  /** The storage path of an uploaded document. */
  function UploadUrl(userId: int, name: string): string
  {
    UploadPrefix + IntToString(userId) + ['/'] + name
  }

  /** POST /users/:id/documents with body fields `name` and `type`, given a fresh id and
      the time: 400 when the id does not parse, 400 when a field is missing, else 201
      with the new record. The roster is not an input: the user's existence is not
      checked and nothing is appended to anyone's documents. */
  function PostDocument(id: Option<int>, name: Option<string>, docType: Option<string>,
                        freshId: int, now: string): (r: Reply<UploadedDocument>)
    ensures id.None? ==> r == Fail(400, InvalidUserId)
    ensures id.Some? && (FalsyText(name) || FalsyText(docType)) ==> r == Fail(400, NameAndTypeRequired)
    ensures r.Ok? <==> id.Some? && !FalsyText(name) && !FalsyText(docType)
    ensures r.Ok? ==> && r.code == 201 && r.data.id == freshId && r.data.uploadedAt == now
                      && r.data.name == name.value && r.data.docType == docType.value
                      && r.data.url == UploadUrl(id.value, name.value)
  {
    if id.None? then Fail(400, InvalidUserId)
    else if FalsyText(name) || FalsyText(docType) then Fail(400, NameAndTypeRequired)
    else Ok(201, UploadedDocument(freshId, name.value, docType.value, now, UploadUrl(id.value, name.value)))
  }

  /** The upload path names the user it was posted for: different ids give different URLs. */
  lemma UploadUrlDeterminesUser(a: int, b: int, name: string)
    requires UploadUrl(a, name) == UploadUrl(b, name)
    ensures a == b
  {
    var sa, sb := IntToString(a), IntToString(b);
    assert UploadUrl(a, name) == UploadPrefix + (sa + ['/'] + name);
    assert UploadUrl(b, name) == UploadPrefix + (sb + ['/'] + name);
    DropCommonPrefix(UploadPrefix, sa + ['/'] + name, sb + ['/'] + name);
    DropCommonSuffix(sa + ['/'], sb + ['/'], name);
    DropCommonSuffix(sa, sb, ['/']);
    IntToStringInjective(a, b);
  }
}
