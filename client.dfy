/** The client object: a credential triple fixed at construction, and one
    operation per remote procedure that builds the parameter vector, hands it
    to the transport and casts the reply to the operation's result type. */
module TextAmerica {
  import opened Wire
  import opened Requests
  import opened Coercion
  import opened Upload
  import P = Procedures
  import R = Requests

  class TextAmerica4J {
    const apiKey: NullableString
    const login: NullableString
    const password: NullableString

    /** The XML-RPC transport bound to the service endpoint: it receives the
        procedure name and the parameter vector and returns the reply. */
    const xmlRpc: Call -> Reply

    /** `Base64.encode` followed by `new String(..)` on the buffer. */
    const base64: seq<Byte> -> string

    /** The service URL the transport was created for. */
    const endpoint: string

    /** Stores the triple, nothing checked, and the transport created for
        the fixed service endpoint. */
    constructor (apiKey: NullableString, login: NullableString, password: NullableString,
                 xmlRpc: Call -> Reply, base64: seq<Byte> -> string)
      ensures this.apiKey == apiKey && this.login == login && this.password == password
      ensures this.xmlRpc == xmlRpc && this.base64 == base64
      ensures endpoint == P.ApiEndpoint
    {
      endpoint := P.ApiEndpoint;
      this.apiKey := apiKey;
      this.login := login;
      this.password := password;
      this.xmlRpc := xmlRpc;
      this.base64 := base64;
    }

    /** `prepareDefaultRequestParameters()`: a new vector holding exactly the
        API key, the login and the password, in that order. */
    method PrepareDefaultRequestParameters() returns (parameters: seq<Param>)
      ensures parameters == Credentials(apiKey, login, password)
      ensures |parameters| == 3
    {
      parameters := [];
      parameters := parameters + [StrParam(apiKey)];
      parameters := parameters + [StrParam(login)];
      parameters := parameters + [StrParam(password)];
    }

    /** `xmlRpcClient.execute(methodName, parameters)`: the call handed over is
        exactly the name and the vector's current contents. */
    method Execute(methodName: string, parameters: seq<Param>) returns (call: Call, reply: Reply)
      ensures call.methodName == methodName && call.params == parameters
      ensures reply == xmlRpc(call)
    {
      call := Call(methodName, parameters);
      reply := xmlRpc(call);
    }

    /** `getMyMoblogs()`. */
    method GetMyMoblogs() returns (call: Call, result: Result<seq<Value>>)
      ensures call == BuildCall(Credentials(apiKey, login, password), R.GetMyMoblogs)
      ensures result == VectorResult(xmlRpc(call))
    {
      var parameters := PrepareDefaultRequestParameters();
      var reply;
      call, reply := Execute(P.WireName(P.MoblogGetMyMoblogs), parameters);
      result := VectorResult(reply);
    }

    /** `getCommunityMoblogs(String)`: the filter is sent only when it is
        neither null nor empty. */
    method GetCommunityMoblogs(which: NullableString) returns (call: Call, result: Result<seq<Value>>)
      ensures call == BuildCall(Credentials(apiKey, login, password), R.GetCommunityMoblogs(which))
      ensures |call.params| == (if IsNullOrBlank(which) then 3 else 4)
      ensures result == VectorResult(xmlRpc(call))
    {
      var parameters := PrepareDefaultRequestParameters();
      if !IsNullOrBlank(which) {
        parameters := parameters + [PStr(which.value)];
      }
      var reply;
      call, reply := Execute(P.WireName(P.MoblogGetCommunityMoblogs), parameters);
      result := VectorResult(reply);
    }

    /** `update(Integer, String, String, String, String, String, String)`. */
    method Update(moblogID: NullableInt, domain: NullableString, secretWord: NullableString,
                  title: NullableString, description: NullableString,
                  approvalType: NullableString, allowComments: NullableString)
      returns (call: Call, result: Result<string>)
      ensures call == BuildCall(Credentials(apiKey, login, password),
                                R.Update(moblogID, domain, secretWord, title, description, approvalType, allowComments))
      ensures result == StringResult(xmlRpc(call))
    {
      var parameters := PrepareDefaultRequestParameters();
      parameters := parameters + [IntParam(moblogID)];
      parameters := parameters + [StrParam(domain)];
      parameters := parameters + [StrParam(secretWord)];
      parameters := parameters + [StrParam(title)];
      parameters := parameters + [StrParam(description)];
      parameters := parameters + [StrParam(approvalType)];
      parameters := parameters + [StrParam(allowComments)];
      var reply;
      call, reply := Execute(P.WireName(P.MoblogUpdate), parameters);
      result := StringResult(reply);
    }

    /** `update(int, String, String, String, String, char, char)`: boxes the
        identifier, turns each flag into a one-character string (any
        character) and delegates. */
    method UpdatePrimitive(moblogID: Int32, domain: NullableString, secretWord: NullableString,
                           title: NullableString, description: NullableString,
                           approvalType: char, allowComments: char)
      returns (call: Call, result: Result<string>)
      ensures call == BuildCall(Credentials(apiKey, login, password),
                                R.Update(Some(moblogID), domain, secretWord, title, description,
                                         Some([approvalType]), Some([allowComments])))
      ensures result == StringResult(xmlRpc(call))
    {
      call, result := Update(Some(moblogID), domain, secretWord, title, description,
                             Some([approvalType]), Some([allowComments]));
    }

    /** `changeTitle(Integer, String)`. */
    method ChangeTitle(moblogID: NullableInt, title: NullableString) returns (call: Call, result: Result<string>)
      ensures call == BuildCall(Credentials(apiKey, login, password), R.ChangeTitle(moblogID, title))
      ensures result == StringResult(xmlRpc(call))
    {
      var parameters := PrepareDefaultRequestParameters();
      parameters := parameters + [IntParam(moblogID)];
      parameters := parameters + [StrParam(title)];
      var reply;
      call, reply := Execute(P.WireName(P.MoblogChangeTitle), parameters);
      result := StringResult(reply);
    }

    /** `changeTitle(int, String)`: boxes the identifiers and delegates. */
    method ChangeTitlePrimitive(moblogID: Int32, title: NullableString) returns (call: Call, result: Result<string>)
      ensures call == BuildCall(Credentials(apiKey, login, password), R.ChangeTitle(Some(moblogID), title))
      ensures result == StringResult(xmlRpc(call))
    {
      call, result := ChangeTitle(Some(moblogID), title);
    }

    /** `changeText(Integer, String)`. */
    method ChangeText(moblogID: NullableInt, text: NullableString) returns (call: Call, result: Result<string>)
      ensures call == BuildCall(Credentials(apiKey, login, password), R.ChangeText(moblogID, text))
      ensures result == StringResult(xmlRpc(call))
    {
      var parameters := PrepareDefaultRequestParameters();
      parameters := parameters + [IntParam(moblogID)];
      parameters := parameters + [StrParam(text)];
      var reply;
      call, reply := Execute(P.WireName(P.MoblogChangeText), parameters);
      result := StringResult(reply);
    }

    /** `changeText(int, String)`: boxes the identifiers and delegates. */
    method ChangeTextPrimitive(moblogID: Int32, text: NullableString) returns (call: Call, result: Result<string>)
      ensures call == BuildCall(Credentials(apiKey, login, password), R.ChangeText(Some(moblogID), text))
      ensures result == StringResult(xmlRpc(call))
    {
      call, result := ChangeText(Some(moblogID), text);
    }

    /** `changeDomain(Integer, String)`. */
    method ChangeDomain(moblogID: NullableInt, domain: NullableString) returns (call: Call, result: Result<string>)
      ensures call == BuildCall(Credentials(apiKey, login, password), R.ChangeDomain(moblogID, domain))
      ensures result == StringResult(xmlRpc(call))
    {
      var parameters := PrepareDefaultRequestParameters();
      parameters := parameters + [IntParam(moblogID)];
      parameters := parameters + [StrParam(domain)];
      var reply;
      call, reply := Execute(P.WireName(P.MoblogChangeDomain), parameters);
      result := StringResult(reply);
    }

    /** `changeDomain(int, String)`: boxes the identifiers and delegates. */
    method ChangeDomainPrimitive(moblogID: Int32, domain: NullableString) returns (call: Call, result: Result<string>)
      ensures call == BuildCall(Credentials(apiKey, login, password), R.ChangeDomain(Some(moblogID), domain))
      ensures result == StringResult(xmlRpc(call))
    {
      call, result := ChangeDomain(Some(moblogID), domain);
    }

    /** `changeSecretWord(Integer, String)`. */
    method ChangeSecretWord(moblogID: NullableInt, secretWord: NullableString) returns (call: Call, result: Result<string>)
      ensures call == BuildCall(Credentials(apiKey, login, password), R.ChangeSecretWord(moblogID, secretWord))
      ensures result == StringResult(xmlRpc(call))
    {
      var parameters := PrepareDefaultRequestParameters();
      parameters := parameters + [IntParam(moblogID)];
      parameters := parameters + [StrParam(secretWord)];
      var reply;
      call, reply := Execute(P.WireName(P.MoblogChangeSecretWord), parameters);
      result := StringResult(reply);
    }

    /** `changeSecretWord(int, String)`: boxes the identifiers and delegates. */
    method ChangeSecretWordPrimitive(moblogID: Int32, secretWord: NullableString) returns (call: Call, result: Result<string>)
      ensures call == BuildCall(Credentials(apiKey, login, password), R.ChangeSecretWord(Some(moblogID), secretWord))
      ensures result == StringResult(xmlRpc(call))
    {
      call, result := ChangeSecretWord(Some(moblogID), secretWord);
    }

    /** `entryUpdate(Integer, Integer, String, String, Integer, File, String)`:
        the five arguments are added, then the whole file is read into memory;
        its base64 text and the file type are added last. A file that cannot
        be opened or read ends the call with `IOError` before anything is sent. */
    method EntryUpdate(moblogID: NullableInt, entryID: NullableInt, title: NullableString,
                       text: NullableString, categoryID: NullableInt, imageData: ImageFile,
                       fileType: NullableString)
      returns (call: Option<Call>, result: Result<string>)
      ensures imageData.Missing? || imageData.readFails ==> call == None && result == Failure(IOError)
      ensures imageData.Readable? && !imageData.readFails ==>
        call == Some(BuildCall(Credentials(apiKey, login, password),
                               R.EntryUpdate(moblogID, entryID, title, text, categoryID,
                                             base64(FileBytes(imageData)), fileType))) &&
        result == StringResult(xmlRpc(call.value))
    {
      var parameters := PrepareDefaultRequestParameters();
      parameters := parameters + [IntParam(moblogID)];
      parameters := parameters + [IntParam(entryID)];
      parameters := parameters + [StrParam(title)];
      parameters := parameters + [StrParam(text)];
      parameters := parameters + [IntParam(categoryID)];
      var image := ReadImage(imageData);
      if image.Failure? {
        return None, Failure(image.error);
      }
      parameters := parameters + [PStr(base64(image.value))];
      parameters := parameters + [StrParam(fileType)];
      assert parameters == Credentials(apiKey, login, password) + [IntParam(moblogID), IntParam(entryID), StrParam(title),
                                                  StrParam(text), IntParam(categoryID),
                                                  PStr(base64(FileBytes(imageData))), StrParam(fileType)];
      var sent, reply := Execute(P.WireName(P.EntryUpdate), parameters);
      call := Some(sent);
      result := StringResult(reply);
    }

    /** `entryUpdate(int, int, String, String, int, File, String)`: boxes the
        identifiers and delegates. */
    method EntryUpdatePrimitive(moblogID: Int32, entryID: Int32, title: NullableString,
                                text: NullableString, categoryID: Int32, imageData: ImageFile,
                                fileType: NullableString)
      returns (call: Option<Call>, result: Result<string>)
      ensures imageData.Missing? || imageData.readFails ==> call == None && result == Failure(IOError)
      ensures imageData.Readable? && !imageData.readFails ==>
        call == Some(BuildCall(Credentials(apiKey, login, password),
                               R.EntryUpdate(Some(moblogID), Some(entryID), title, text, Some(categoryID),
                                             base64(FileBytes(imageData)), fileType))) &&
        result == StringResult(xmlRpc(call.value))
    {
      call, result := EntryUpdate(Some(moblogID), Some(entryID), title, text, Some(categoryID),
                                  imageData, fileType);
    }

    /** `entryDelete(Integer, Integer)`. */
    method EntryDelete(moblogID: NullableInt, entryID: NullableInt) returns (call: Call, result: Result<string>)
      ensures call == BuildCall(Credentials(apiKey, login, password), R.EntryDelete(moblogID, entryID))
      ensures result == StringResult(xmlRpc(call))
    {
      var parameters := PrepareDefaultRequestParameters();
      parameters := parameters + [IntParam(moblogID)];
      parameters := parameters + [IntParam(entryID)];
      var reply;
      call, reply := Execute(P.WireName(P.EntryDelete), parameters);
      result := StringResult(reply);
    }

    /** `entryDelete(int, int)`: boxes the identifiers and delegates. */
    method EntryDeletePrimitive(moblogID: Int32, entryID: Int32) returns (call: Call, result: Result<string>)
      ensures call == BuildCall(Credentials(apiKey, login, password), R.EntryDelete(Some(moblogID), Some(entryID)))
      ensures result == StringResult(xmlRpc(call))
    {
      call, result := EntryDelete(Some(moblogID), Some(entryID));
    }

    /** `addKeywords(Integer, String)`. */
    method AddKeywords(entryID: NullableInt, keywords: NullableString) returns (call: Call, result: Result<string>)
      ensures call == BuildCall(Credentials(apiKey, login, password), R.AddKeywords(entryID, keywords))
      ensures result == StringResult(xmlRpc(call))
    {
      var parameters := PrepareDefaultRequestParameters();
      parameters := parameters + [IntParam(entryID)];
      parameters := parameters + [StrParam(keywords)];
      var reply;
      call, reply := Execute(P.WireName(P.KeywordsAdd), parameters);
      result := StringResult(reply);
    }

    /** `addKeywords(int, String)`: boxes the identifiers and delegates. */
    method AddKeywordsPrimitive(entryID: Int32, keywords: NullableString) returns (call: Call, result: Result<string>)
      ensures call == BuildCall(Credentials(apiKey, login, password), R.AddKeywords(Some(entryID), keywords))
      ensures result == StringResult(xmlRpc(call))
    {
      call, result := AddKeywords(Some(entryID), keywords);
    }

    /** `favoritesUpdate(Integer, String)`. */
    method FavoritesUpdate(listID: NullableInt, title: NullableString) returns (call: Call, result: Result<Value>)
      ensures call == BuildCall(Credentials(apiKey, login, password), R.FavoritesUpdate(listID, title))
      ensures result == ObjectResult(xmlRpc(call))
    {
      var parameters := PrepareDefaultRequestParameters();
      parameters := parameters + [IntParam(listID)];
      parameters := parameters + [StrParam(title)];
      var reply;
      call, reply := Execute(P.WireName(P.FavoritesUpdate), parameters);
      result := ObjectResult(reply);
    }

    /** `favoritesUpdate(int, String)`: boxes the identifiers and delegates. */
    method FavoritesUpdatePrimitive(listID: Int32, title: NullableString) returns (call: Call, result: Result<Value>)
      ensures call == BuildCall(Credentials(apiKey, login, password), R.FavoritesUpdate(Some(listID), title))
      ensures result == ObjectResult(xmlRpc(call))
    {
      call, result := FavoritesUpdate(Some(listID), title);
    }

    /** `favoritesDelete(Integer, String)`. */
    method FavoritesDelete(listID: NullableInt, moblogURL: NullableString) returns (call: Call, result: Result<Value>)
      ensures call == BuildCall(Credentials(apiKey, login, password), R.FavoritesDelete(listID, moblogURL))
      ensures result == ObjectResult(xmlRpc(call))
    {
      var parameters := PrepareDefaultRequestParameters();
      parameters := parameters + [IntParam(listID)];
      parameters := parameters + [StrParam(moblogURL)];
      var reply;
      call, reply := Execute(P.WireName(P.FavoritesDelete), parameters);
      result := ObjectResult(reply);
    }

    /** `favoritesDelete(int, String)`: boxes the identifiers and delegates. */
    method FavoritesDeletePrimitive(listID: Int32, moblogURL: NullableString) returns (call: Call, result: Result<Value>)
      ensures call == BuildCall(Credentials(apiKey, login, password), R.FavoritesDelete(Some(listID), moblogURL))
      ensures result == ObjectResult(xmlRpc(call))
    {
      call, result := FavoritesDelete(Some(listID), moblogURL);
    }

    /** `favoritesAssign(Integer, Integer)`. */
    method FavoritesAssign(moblogID: NullableInt, listID: NullableInt) returns (call: Call, result: Result<Value>)
      ensures call == BuildCall(Credentials(apiKey, login, password), R.FavoritesAssign(moblogID, listID))
      ensures result == ObjectResult(xmlRpc(call))
    {
      var parameters := PrepareDefaultRequestParameters();
      parameters := parameters + [IntParam(moblogID)];
      parameters := parameters + [IntParam(listID)];
      var reply;
      call, reply := Execute(P.WireName(P.FavoritesAssign), parameters);
      result := ObjectResult(reply);
    }

    /** `favoritesAssign(int, int)`: boxes the identifiers and delegates. */
    method FavoritesAssignPrimitive(moblogID: Int32, listID: Int32) returns (call: Call, result: Result<Value>)
      ensures call == BuildCall(Credentials(apiKey, login, password), R.FavoritesAssign(Some(moblogID), Some(listID)))
      ensures result == ObjectResult(xmlRpc(call))
    {
      call, result := FavoritesAssign(Some(moblogID), Some(listID));
    }

    /** `favoritesAddMoblog(Integer, String)`. */
    method FavoritesAddMoblog(listID: NullableInt, moblogURL: NullableString) returns (call: Call, result: Result<Value>)
      ensures call == BuildCall(Credentials(apiKey, login, password), R.FavoritesAddMoblog(listID, moblogURL))
      ensures result == ObjectResult(xmlRpc(call))
    {
      var parameters := PrepareDefaultRequestParameters();
      parameters := parameters + [IntParam(listID)];
      parameters := parameters + [StrParam(moblogURL)];
      var reply;
      call, reply := Execute(P.WireName(P.FavoritesAddMoblog), parameters);
      result := ObjectResult(reply);
    }

    /** `favoritesAddMoblog(int, String)`: boxes the identifiers and delegates. */
    method FavoritesAddMoblogPrimitive(listID: Int32, moblogURL: NullableString) returns (call: Call, result: Result<Value>)
      ensures call == BuildCall(Credentials(apiKey, login, password), R.FavoritesAddMoblog(Some(listID), moblogURL))
      ensures result == ObjectResult(xmlRpc(call))
    {
      call, result := FavoritesAddMoblog(Some(listID), moblogURL);
    }

    /** `favoritesRemoveMoblog(Integer, String)`. */
    method FavoritesRemoveMoblog(listID: NullableInt, moblogURL: NullableString) returns (call: Call, result: Result<Value>)
      ensures call == BuildCall(Credentials(apiKey, login, password), R.FavoritesRemoveMoblog(listID, moblogURL))
      ensures result == ObjectResult(xmlRpc(call))
    {
      var parameters := PrepareDefaultRequestParameters();
      parameters := parameters + [IntParam(listID)];
      parameters := parameters + [StrParam(moblogURL)];
      var reply;
      call, reply := Execute(P.WireName(P.FavoritesRemoveMoblog), parameters);
      result := ObjectResult(reply);
    }

    /** `favoritesRemoveMoblog(int, String)`: boxes the identifiers and delegates. */
    method FavoritesRemoveMoblogPrimitive(listID: Int32, moblogURL: NullableString) returns (call: Call, result: Result<Value>)
      ensures call == BuildCall(Credentials(apiKey, login, password), R.FavoritesRemoveMoblog(Some(listID), moblogURL))
      ensures result == ObjectResult(xmlRpc(call))
    {
      call, result := FavoritesRemoveMoblog(Some(listID), moblogURL);
    }

    /** `bookmarksUpdate(Integer, String)`. */
    method BookmarksUpdate(listID: NullableInt, title: NullableString) returns (call: Call, result: Result<string>)
      ensures call == BuildCall(Credentials(apiKey, login, password), R.BookmarksUpdate(listID, title))
      ensures result == StringResult(xmlRpc(call))
    {
      var parameters := PrepareDefaultRequestParameters();
      parameters := parameters + [IntParam(listID)];
      parameters := parameters + [StrParam(title)];
      var reply;
      call, reply := Execute(P.WireName(P.BookmarksUpdate), parameters);
      result := StringResult(reply);
    }

    /** `bookmarksUpdate(int, String)`: boxes the identifiers and delegates. */
    method BookmarksUpdatePrimitive(listID: Int32, title: NullableString) returns (call: Call, result: Result<string>)
      ensures call == BuildCall(Credentials(apiKey, login, password), R.BookmarksUpdate(Some(listID), title))
      ensures result == StringResult(xmlRpc(call))
    {
      call, result := BookmarksUpdate(Some(listID), title);
    }

    /** `bookmarksAssign(Integer, Integer)`. */
    method BookmarksAssign(moblogID: NullableInt, listID: NullableInt) returns (call: Call, result: Result<string>)
      ensures call == BuildCall(Credentials(apiKey, login, password), R.BookmarksAssign(moblogID, listID))
      ensures result == StringResult(xmlRpc(call))
    {
      var parameters := PrepareDefaultRequestParameters();
      parameters := parameters + [IntParam(moblogID)];
      parameters := parameters + [IntParam(listID)];
      var reply;
      call, reply := Execute(P.WireName(P.BookmarksAssign), parameters);
      result := StringResult(reply);
    }

    /** `bookmarksAssign(int, int)`: boxes the identifiers and delegates. */
    method BookmarksAssignPrimitive(moblogID: Int32, listID: Int32) returns (call: Call, result: Result<string>)
      ensures call == BuildCall(Credentials(apiKey, login, password), R.BookmarksAssign(Some(moblogID), Some(listID)))
      ensures result == StringResult(xmlRpc(call))
    {
      call, result := BookmarksAssign(Some(moblogID), Some(listID));
    }

    /** `bookmarksUnAssign(Integer, Integer)`. */
    method BookmarksUnAssign(moblogID: NullableInt, listID: NullableInt) returns (call: Call, result: Result<string>)
      ensures call == BuildCall(Credentials(apiKey, login, password), R.BookmarksUnAssign(moblogID, listID))
      ensures result == StringResult(xmlRpc(call))
    {
      var parameters := PrepareDefaultRequestParameters();
      parameters := parameters + [IntParam(moblogID)];
      parameters := parameters + [IntParam(listID)];
      var reply;
      call, reply := Execute(P.WireName(P.BookmarksUnAssign), parameters);
      result := StringResult(reply);
    }

    /** `bookmarksUnAssign(int, int)`: boxes the identifiers and delegates. */
    method BookmarksUnAssignPrimitive(moblogID: Int32, listID: Int32) returns (call: Call, result: Result<string>)
      ensures call == BuildCall(Credentials(apiKey, login, password), R.BookmarksUnAssign(Some(moblogID), Some(listID)))
      ensures result == StringResult(xmlRpc(call))
    {
      call, result := BookmarksUnAssign(Some(moblogID), Some(listID));
    }

    /** `bookmarksDelete(Integer)`. */
    method BookmarksDelete(listID: NullableInt) returns (call: Call, result: Result<string>)
      ensures call == BuildCall(Credentials(apiKey, login, password), R.BookmarksDelete(listID))
      ensures result == StringResult(xmlRpc(call))
    {
      var parameters := PrepareDefaultRequestParameters();
      parameters := parameters + [IntParam(listID)];
      var reply;
      call, reply := Execute(P.WireName(P.BookmarksDelete), parameters);
      result := StringResult(reply);
    }

    /** `bookmarksDelete(int)`: boxes the identifiers and delegates. */
    method BookmarksDeletePrimitive(listID: Int32) returns (call: Call, result: Result<string>)
      ensures call == BuildCall(Credentials(apiKey, login, password), R.BookmarksDelete(Some(listID)))
      ensures result == StringResult(xmlRpc(call))
    {
      call, result := BookmarksDelete(Some(listID));
    }

    /** `bookmarksUpdateURL(Integer, String)`. */
    method BookmarksUpdateUrl(listID: NullableInt, url: NullableString) returns (call: Call, result: Result<string>)
      ensures call == BuildCall(Credentials(apiKey, login, password), R.BookmarksUpdateUrl(listID, url))
      ensures result == StringResult(xmlRpc(call))
    {
      var parameters := PrepareDefaultRequestParameters();
      parameters := parameters + [IntParam(listID)];
      parameters := parameters + [StrParam(url)];
      var reply;
      call, reply := Execute(P.WireName(P.BookmarksUpdateUrl), parameters);
      result := StringResult(reply);
    }

    /** `bookmarksUpdateURL(int, String)`: boxes the identifiers and delegates. */
    method BookmarksUpdateUrlPrimitive(listID: Int32, url: NullableString) returns (call: Call, result: Result<string>)
      ensures call == BuildCall(Credentials(apiKey, login, password), R.BookmarksUpdateUrl(Some(listID), url))
      ensures result == StringResult(xmlRpc(call))
    {
      call, result := BookmarksUpdateUrl(Some(listID), url);
    }

    /** `bookmarksRemoveURL(Integer, String)`. */
    method BookmarksRemoveUrl(listID: NullableInt, url: NullableString) returns (call: Call, result: Result<string>)
      ensures call == BuildCall(Credentials(apiKey, login, password), R.BookmarksRemoveUrl(listID, url))
      ensures result == StringResult(xmlRpc(call))
    {
      var parameters := PrepareDefaultRequestParameters();
      parameters := parameters + [IntParam(listID)];
      parameters := parameters + [StrParam(url)];
      var reply;
      call, reply := Execute(P.WireName(P.BookmarksRemoveUrl), parameters);
      result := StringResult(reply);
    }

    /** `bookmarksRemoveURL(int, String)`: boxes the identifiers and delegates. */
    method BookmarksRemoveUrlPrimitive(listID: Int32, url: NullableString) returns (call: Call, result: Result<string>)
      ensures call == BuildCall(Credentials(apiKey, login, password), R.BookmarksRemoveUrl(Some(listID), url))
      ensures result == StringResult(xmlRpc(call))
    {
      call, result := BookmarksRemoveUrl(Some(listID), url);
    }

    /** `templateUpdateSection(Integer, String, String)`. */
    method TemplateUpdateSection(moblogID: NullableInt, sectionID: NullableString, htmlCode: NullableString) returns (call: Call, result: Result<string>)
      ensures call == BuildCall(Credentials(apiKey, login, password), R.TemplateUpdateSection(moblogID, sectionID, htmlCode))
      ensures result == StringResult(xmlRpc(call))
    {
      var parameters := PrepareDefaultRequestParameters();
      parameters := parameters + [IntParam(moblogID)];
      parameters := parameters + [StrParam(sectionID)];
      parameters := parameters + [StrParam(htmlCode)];
      var reply;
      call, reply := Execute(P.WireName(P.TemplateUpdateSection), parameters);
      result := StringResult(reply);
    }

    /** `templateUpdateSection(int, String, String)`: boxes the identifiers and delegates. */
    method TemplateUpdateSectionPrimitive(moblogID: Int32, sectionID: NullableString, htmlCode: NullableString) returns (call: Call, result: Result<string>)
      ensures call == BuildCall(Credentials(apiKey, login, password), R.TemplateUpdateSection(Some(moblogID), sectionID, htmlCode))
      ensures result == StringResult(xmlRpc(call))
    {
      call, result := TemplateUpdateSection(Some(moblogID), sectionID, htmlCode);
    }

    /** `setTemplate(Integer, Integer, Integer)`. */
    method SetTemplate(moblogID: NullableInt, graphicID: NullableInt, layoutID: NullableInt) returns (call: Call, result: Result<string>)
      ensures call == BuildCall(Credentials(apiKey, login, password), R.SetTemplate(moblogID, graphicID, layoutID))
      ensures result == StringResult(xmlRpc(call))
    {
      var parameters := PrepareDefaultRequestParameters();
      parameters := parameters + [IntParam(moblogID)];
      parameters := parameters + [IntParam(graphicID)];
      parameters := parameters + [IntParam(layoutID)];
      var reply;
      call, reply := Execute(P.WireName(P.TemplateSetTemplate), parameters);
      result := StringResult(reply);
    }

    /** `setTemplate(int, int, int)`: boxes the identifiers and delegates. */
    method SetTemplatePrimitive(moblogID: Int32, graphicID: Int32, layoutID: Int32) returns (call: Call, result: Result<string>)
      ensures call == BuildCall(Credentials(apiKey, login, password), R.SetTemplate(Some(moblogID), Some(graphicID), Some(layoutID)))
      ensures result == StringResult(xmlRpc(call))
    {
      call, result := SetTemplate(Some(moblogID), Some(graphicID), Some(layoutID));
    }
  }
}
