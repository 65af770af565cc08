/** The call builder: which positional parameters each client operation
    hands to the transport, and under which procedure name. */
module Requests {
  import opened Wire
  import P = Procedures

  /** One client operation with its (boxed) arguments, in declaration order.
      For an entry upload, `encodedImage` is the base64 text of the file. */
  datatype Request =
    | GetMyMoblogs
    | GetCommunityMoblogs(which: NullableString)
    | Update(moblogID: NullableInt, domain: NullableString, secretWord: NullableString,
             title: NullableString, description: NullableString,
             approvalType: NullableString, allowComments: NullableString)
    | ChangeTitle(moblogID: NullableInt, title: NullableString)
    | ChangeText(moblogID: NullableInt, text: NullableString)
    | ChangeDomain(moblogID: NullableInt, domain: NullableString)
    | ChangeSecretWord(moblogID: NullableInt, secretWord: NullableString)
    | EntryUpdate(moblogID: NullableInt, entryID: NullableInt, title: NullableString,
                  text: NullableString, categoryID: NullableInt, encodedImage: string,
                  fileType: NullableString)
    | EntryDelete(moblogID: NullableInt, entryID: NullableInt)
    | AddKeywords(entryID: NullableInt, keywords: NullableString)
    | FavoritesUpdate(listID: NullableInt, title: NullableString)
    | FavoritesDelete(listID: NullableInt, moblogURL: NullableString)
    | FavoritesAssign(moblogID: NullableInt, listID: NullableInt)
    | FavoritesAddMoblog(listID: NullableInt, moblogURL: NullableString)
    | FavoritesRemoveMoblog(listID: NullableInt, moblogURL: NullableString)
    | BookmarksUpdate(listID: NullableInt, title: NullableString)
    | BookmarksAssign(moblogID: NullableInt, listID: NullableInt)
    | BookmarksUnAssign(moblogID: NullableInt, listID: NullableInt)
    | BookmarksDelete(listID: NullableInt)
    | BookmarksUpdateUrl(listID: NullableInt, url: NullableString)
    | BookmarksRemoveUrl(listID: NullableInt, url: NullableString)
    | TemplateUpdateSection(moblogID: NullableInt, sectionID: NullableString, htmlCode: NullableString)
    | SetTemplate(moblogID: NullableInt, graphicID: NullableInt, layoutID: NullableInt)

  /** `checkNullOrBlank`: null or exactly the empty string. */
  predicate IsNullOrBlank(item: NullableString)
  {
    item.None? || item.value == ""
  }

  /** A string counts as blank only when it is empty: whitespace is kept. */
  lemma BlankMeansEmpty(item: NullableString)
    ensures IsNullOrBlank(item) <==> item == None || item == Some("")
    ensures !IsNullOrBlank(Some(" "))
  {
  }

  /** The three values `prepareDefaultRequestParameters` starts every vector with. */
  function Credentials(apiKey: NullableString, login: NullableString, password: NullableString): seq<Param>
  {
    [StrParam(apiKey), StrParam(login), StrParam(password)]
  }

  /** The remote procedure an operation invokes. */
  function ProcedureOf(req: Request): P.Procedure
  {
    match req
    case GetMyMoblogs => P.MoblogGetMyMoblogs
    case GetCommunityMoblogs(_) => P.MoblogGetCommunityMoblogs
    case Update(_, _, _, _, _, _, _) => P.MoblogUpdate
    case ChangeTitle(_, _) => P.MoblogChangeTitle
    case ChangeText(_, _) => P.MoblogChangeText
    case ChangeDomain(_, _) => P.MoblogChangeDomain
    case ChangeSecretWord(_, _) => P.MoblogChangeSecretWord
    case EntryUpdate(_, _, _, _, _, _, _) => P.EntryUpdate
    case EntryDelete(_, _) => P.EntryDelete
    case AddKeywords(_, _) => P.KeywordsAdd
    case FavoritesUpdate(_, _) => P.FavoritesUpdate
    case FavoritesDelete(_, _) => P.FavoritesDelete
    case FavoritesAssign(_, _) => P.FavoritesAssign
    case FavoritesAddMoblog(_, _) => P.FavoritesAddMoblog
    case FavoritesRemoveMoblog(_, _) => P.FavoritesRemoveMoblog
    case BookmarksUpdate(_, _) => P.BookmarksUpdate
    case BookmarksAssign(_, _) => P.BookmarksAssign
    case BookmarksUnAssign(_, _) => P.BookmarksUnAssign
    case BookmarksDelete(_) => P.BookmarksDelete
    case BookmarksUpdateUrl(_, _) => P.BookmarksUpdateUrl
    case BookmarksRemoveUrl(_, _) => P.BookmarksRemoveUrl
    case TemplateUpdateSection(_, _, _) => P.TemplateUpdateSection
    case SetTemplate(_, _, _) => P.TemplateSetTemplate
  }

  /** The parameters an operation appends after the credentials. */
  function Arguments(req: Request): seq<Param>
  {
    match req
    case GetMyMoblogs => []
    case GetCommunityMoblogs(which) =>
      if IsNullOrBlank(which) then [] else [PStr(which.value)]
    case Update(moblogID, domain, secretWord, title, description, approvalType, allowComments) =>
      [IntParam(moblogID), StrParam(domain), StrParam(secretWord), StrParam(title),
       StrParam(description), StrParam(approvalType), StrParam(allowComments)]
    case ChangeTitle(moblogID, title) => [IntParam(moblogID), StrParam(title)]
    case ChangeText(moblogID, text) => [IntParam(moblogID), StrParam(text)]
    case ChangeDomain(moblogID, domain) => [IntParam(moblogID), StrParam(domain)]
    case ChangeSecretWord(moblogID, secretWord) => [IntParam(moblogID), StrParam(secretWord)]
    case EntryUpdate(moblogID, entryID, title, text, categoryID, encodedImage, fileType) =>
      [IntParam(moblogID), IntParam(entryID), StrParam(title), StrParam(text),
       IntParam(categoryID), PStr(encodedImage), StrParam(fileType)]
    case EntryDelete(moblogID, entryID) => [IntParam(moblogID), IntParam(entryID)]
    case AddKeywords(entryID, keywords) => [IntParam(entryID), StrParam(keywords)]
    case FavoritesUpdate(listID, title) => [IntParam(listID), StrParam(title)]
    case FavoritesDelete(listID, moblogURL) => [IntParam(listID), StrParam(moblogURL)]
    case FavoritesAssign(moblogID, listID) => [IntParam(moblogID), IntParam(listID)]
    case FavoritesAddMoblog(listID, moblogURL) => [IntParam(listID), StrParam(moblogURL)]
    case FavoritesRemoveMoblog(listID, moblogURL) => [IntParam(listID), StrParam(moblogURL)]
    case BookmarksUpdate(listID, title) => [IntParam(listID), StrParam(title)]
    case BookmarksAssign(moblogID, listID) => [IntParam(moblogID), IntParam(listID)]
    case BookmarksUnAssign(moblogID, listID) => [IntParam(moblogID), IntParam(listID)]
    case BookmarksDelete(listID) => [IntParam(listID)]
    case BookmarksUpdateUrl(listID, url) => [IntParam(listID), StrParam(url)]
    case BookmarksRemoveUrl(listID, url) => [IntParam(listID), StrParam(url)]
    case TemplateUpdateSection(moblogID, sectionID, htmlCode) =>
      [IntParam(moblogID), StrParam(sectionID), StrParam(htmlCode)]
    case SetTemplate(moblogID, graphicID, layoutID) =>
      [IntParam(moblogID), IntParam(graphicID), IntParam(layoutID)]
  }

  /** Every operation's arguments fit its procedure's declared signature:
      the right kind of value in each position, in declaration order, and
      only the optional filter may be left out. */
  lemma ArgumentsConform(req: Request)
    ensures P.Conforms(Arguments(req), P.Signature(ProcedureOf(req)))
  {
    if req.Update? || req.EntryUpdate? {
      LongArgumentsConform(req);
    } else {
      ShortArgumentsConform(req);
    }
  }

  /** The two seven-argument operations, position by position. */
  lemma LongArgumentsConform(req: Request)
    requires req.Update? || req.EntryUpdate?
    ensures P.Conforms(Arguments(req), P.Signature(ProcedureOf(req)))
  {
    var args, sig := Arguments(req), P.Signature(ProcedureOf(req));
    forall i | 0 <= i < |args| ensures P.Fits(args[i], sig[i]) {
      if i == 0 {} else if i == 1 {} else if i == 2 {} else if i == 3 {} else if i == 4 {} else if i == 5 {}
    }
  }

  /** The operations with at most three arguments, position by position. */
  lemma ShortArgumentsConform(req: Request)
    requires !req.Update? && !req.EntryUpdate?
    ensures P.Conforms(Arguments(req), P.Signature(ProcedureOf(req)))
  {
    var args, sig := Arguments(req), P.Signature(ProcedureOf(req));
    forall i | 0 <= i < |args| ensures P.Fits(args[i], sig[i]) {
      if i == 0 {} else if i == 1 {}
    }
  }

  /** The pair handed to `execute`: the credentials followed by the arguments. */
  function BuildCall(credentials: seq<Param>, req: Request): Call
  {
    Call(P.WireName(ProcedureOf(req)), credentials + Arguments(req))
  }

  /** Every call starts with the credential triple, in order, followed by
      exactly the operation's arguments; every operation except the
      community listing sends 3 + (its declared arity) parameters. */
  lemma CredentialsComeFirst(apiKey: NullableString, login: NullableString, password: NullableString, req: Request)
    ensures var params := BuildCall(Credentials(apiKey, login, password), req).params;
      |params| >= 3 &&
      params[0] == StrParam(apiKey) && params[1] == StrParam(login) && params[2] == StrParam(password) &&
      params[3..] == Arguments(req) &&
      (req.GetCommunityMoblogs? || |params| == 3 + |P.Signature(ProcedureOf(req))|)
  {
    ArgumentsConform(req);
    P.OnlyCommunityListingIsVariadic(ProcedureOf(req), Arguments(req));
  }

  /** The community filter is sent exactly when it is neither null nor empty,
      and then unchanged as the fourth (last) parameter. */
  lemma CommunityFilterOmission(credentials: seq<Param>, which: NullableString)
    requires |credentials| == 3
    ensures var params := BuildCall(credentials, GetCommunityMoblogs(which)).params;
      params[..3] == credentials &&
      (|params| == 3 <==> IsNullOrBlank(which)) &&
      (!IsNullOrBlank(which) <==> |params| == 4) &&
      (|params| == 4 ==> params[3] == PStr(which.value) && which.value != "")
  {
  }

  /** The `char` flags of `update`'s primitive overload become one-character
      strings in the last two positions, whatever the character. */
  lemma UpdateFlagsAreOneCharStrings(moblogID: Int32, domain: NullableString, secretWord: NullableString,
                                     title: NullableString, description: NullableString,
                                     approvalType: char, allowComments: char)
    ensures var args := Arguments(Update(Some(moblogID), domain, secretWord, title, description,
                                         Some([approvalType]), Some([allowComments])));
      |args| == 7 && args[0] == PInt(moblogID) &&
      args[5].PStr? && |args[5].s| == 1 && args[5].s[0] == approvalType &&
      args[6].PStr? && |args[6].s| == 1 && args[6].s[0] == allowComments
  {
  }

  /** `update` sends ten parameters: the credentials, then the moblog
      identifier, domain, secret word, title, description, approval type and
      comment flag, in that order. */
  lemma UpdateLayout(credentials: seq<Param>, moblogID: NullableInt, domain: NullableString,
                     secretWord: NullableString, title: NullableString, description: NullableString,
                     approvalType: NullableString, allowComments: NullableString)
    requires |credentials| == 3
    ensures var call := BuildCall(credentials, Update(moblogID, domain, secretWord, title, description,
                                                      approvalType, allowComments));
      call.methodName == "ta.Moblog.Update" &&
      |call.params| == 10 && call.params[..3] == credentials &&
      call.params[3] == IntParam(moblogID) && call.params[4] == StrParam(domain) &&
      call.params[5] == StrParam(secretWord) && call.params[6] == StrParam(title) &&
      call.params[7] == StrParam(description) && call.params[8] == StrParam(approvalType) &&
      call.params[9] == StrParam(allowComments)
  {
  }

  /** `entryUpdate` sends ten parameters: the credentials, the five entry
      fields, then the encoded image second to last and the file type last. */
  lemma EntryUpdateLayout(credentials: seq<Param>, moblogID: NullableInt, entryID: NullableInt,
                          title: NullableString, text: NullableString, categoryID: NullableInt,
                          encodedImage: string, fileType: NullableString)
    requires |credentials| == 3
    ensures var call := BuildCall(credentials, EntryUpdate(moblogID, entryID, title, text, categoryID,
                                                           encodedImage, fileType));
      call.methodName == "ta.Entry.Update" &&
      |call.params| == 10 && call.params[..3] == credentials &&
      call.params[3..8] == [IntParam(moblogID), IntParam(entryID), StrParam(title), StrParam(text),
                            IntParam(categoryID)] &&
      call.params[8] == PStr(encodedImage) && call.params[9] == StrParam(fileType)
  {
  }

  /** The scenario `update(42, "foo", "bar", "T", "D", 'C', 'Y')`. */
  lemma UpdateExample(apiKey: NullableString, login: NullableString, password: NullableString)
    ensures BuildCall(Credentials(apiKey, login, password),
                      Update(Some(42), Some("foo"), Some("bar"), Some("T"), Some("D"), Some(['C']), Some(['Y'])))
         == Call("ta.Moblog.Update",
                 [StrParam(apiKey), StrParam(login), StrParam(password),
                  PInt(42), PStr("foo"), PStr("bar"), PStr("T"), PStr("D"), PStr("C"), PStr("Y")])
  {
  }
}
