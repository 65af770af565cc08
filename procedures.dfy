/** The catalog of remote procedures: the wire identifier of each and the
    positional signature its arguments follow after the credential triple. */
module Procedures {
  import opened Wire

  /** The fixed service endpoint the transport is bound to. */
  const ApiEndpoint: string := "http://xml.api.textamerica.com"

  datatype Procedure =
    | MoblogGetMyMoblogs
    | MoblogGetCommunityMoblogs
    | MoblogUpdate
    | MoblogChangeTitle
    | MoblogChangeText
    | MoblogChangeDomain
    | MoblogChangeSecretWord
    | EntryUpdate
    | EntryDelete
    | KeywordsAdd
    | FavoritesUpdate
    | FavoritesDelete
    | FavoritesAssign
    | FavoritesAddMoblog
    | FavoritesRemoveMoblog
    | BookmarksUpdate
    | BookmarksAssign
    | BookmarksUnAssign
    | BookmarksDelete
    | BookmarksUpdateUrl
    | BookmarksRemoveUrl
    | TemplateUpdateSection
    | TemplateSetTemplate

  /** The identifier sent on the wire, byte for byte; every one lies in the
      service's `ta.` namespace. */
  function WireName(p: Procedure): (name: string)
    ensures |name| > 3 && name[..3] == "ta."
  {
    match p
    case MoblogGetMyMoblogs => "ta.Moblog.GetMyMoblogs"
    case MoblogGetCommunityMoblogs => "ta.Moblog.GetCommunityMoblogs"
    case MoblogUpdate => "ta.Moblog.Update"
    case MoblogChangeTitle => "ta.Moblog.ChangeTitle"
    case MoblogChangeText => "ta.Moblog.ChangeText"
    case MoblogChangeDomain => "ta.Moblog.ChangeDomain"
    case MoblogChangeSecretWord => "ta.Moblog.ChangeSecretWord"
    case EntryUpdate => "ta.Entry.Update"
    case EntryDelete => "ta.Entry.Delete"
    case KeywordsAdd => "ta.Keywords.Add"
    case FavoritesUpdate => "ta.Favorites.Update"
    case FavoritesDelete => "ta.Favorites.Delete"
    case FavoritesAssign => "ta.Favorites.Assign"
    case FavoritesAddMoblog => "ta.Favorites.AddMoblog"
    case FavoritesRemoveMoblog => "ta.Favorites.RemoveMoblog"
    case BookmarksUpdate => "ta.Bookmarks.Update"
    case BookmarksAssign => "ta.Bookmarks.Assign"
    case BookmarksUnAssign => "ta.Bookmarks.UnAssign"
    case BookmarksDelete => "ta.Bookmarks.Delete"
    case BookmarksUpdateUrl => "ta.Bookmarks.UpdateURL"
    case BookmarksRemoveUrl => "ta.Bookmarks.RemoveURL"
    case TemplateUpdateSection => "ta.Template.UpdateSection"
    case TemplateSetTemplate => "ta.Template.SetTemplate"
  }

  /** Distinct procedures are sent under distinct identifiers, so the server
      can tell every call apart by its name alone. */
  lemma WireNameInjective(p: Procedure, q: Procedure)
    requires WireName(p) == WireName(q)
    ensures p == q
  {
    var a, b := WireName(p), WireName(q);
    assert |a| == |b|;
    assert forall i :: 0 <= i < |a| ==> a[i] == b[i];
  }

  /** The declared Java type of one positional argument. */
  datatype Slot =
    | IntSlot          // java.lang.Integer, null allowed
    | TextSlot         // java.lang.String, null allowed
    | OptionalTextSlot // a filter that is left out when null or blank

  /** Whether a parameter value is admissible for a slot. */
  predicate Fits(param: Param, slot: Slot)
  {
    match slot
    case IntSlot => param.PInt? || param.PNull?
    case TextSlot => param.PStr? || param.PNull?
    case OptionalTextSlot => param.PStr? && param.s != ""
  }

  /** The arguments each procedure takes after the credentials, in order. */
  function Signature(p: Procedure): seq<Slot>
  {
    match p
    case MoblogGetMyMoblogs => []
    case MoblogGetCommunityMoblogs => [OptionalTextSlot]
    case MoblogUpdate => [IntSlot, TextSlot, TextSlot, TextSlot, TextSlot, TextSlot, TextSlot]
    case MoblogChangeTitle => [IntSlot, TextSlot]
    case MoblogChangeText => [IntSlot, TextSlot]
    case MoblogChangeDomain => [IntSlot, TextSlot]
    case MoblogChangeSecretWord => [IntSlot, TextSlot]
    case EntryUpdate => [IntSlot, IntSlot, TextSlot, TextSlot, IntSlot, TextSlot, TextSlot]
    case EntryDelete => [IntSlot, IntSlot]
    case KeywordsAdd => [IntSlot, TextSlot]
    case FavoritesUpdate => [IntSlot, TextSlot]
    case FavoritesDelete => [IntSlot, TextSlot]
    case FavoritesAssign => [IntSlot, IntSlot]
    case FavoritesAddMoblog => [IntSlot, TextSlot]
    case FavoritesRemoveMoblog => [IntSlot, TextSlot]
    case BookmarksUpdate => [IntSlot, TextSlot]
    case BookmarksAssign => [IntSlot, IntSlot]
    case BookmarksUnAssign => [IntSlot, IntSlot]
    case BookmarksDelete => [IntSlot]
    case BookmarksUpdateUrl => [IntSlot, TextSlot]
    case BookmarksRemoveUrl => [IntSlot, TextSlot]
    case TemplateUpdateSection => [IntSlot, TextSlot, TextSlot]
    case TemplateSetTemplate => [IntSlot, IntSlot, IntSlot]
  }

  /** An argument list matches a signature: every value sits in an admissible
      slot, in order, and only optional slots may be left out (at the end). */
  predicate Conforms(args: seq<Param>, sig: seq<Slot>)
  {
    |args| <= |sig| &&
    (forall i :: 0 <= i < |args| ==> Fits(args[i], sig[i])) &&
    (forall i :: |args| <= i < |sig| ==> sig[i] == OptionalTextSlot)
  }

  /** The community listing is the only procedure with an optional argument,
      so every other procedure has a fixed arity. */
  lemma OnlyCommunityListingIsVariadic(p: Procedure, args: seq<Param>)
    requires Conforms(args, Signature(p))
    ensures p != MoblogGetCommunityMoblogs ==> |args| == |Signature(p)|
    ensures p == MoblogGetCommunityMoblogs ==> |args| <= 1
  {
    if p != MoblogGetCommunityMoblogs && |args| < |Signature(p)| {
      OmittedSlotIsOptional(args, Signature(p), |args|);
      assert false;
    }
  }

  lemma OmittedSlotIsOptional(args: seq<Param>, sig: seq<Slot>, i: nat)
    requires Conforms(args, sig) && |args| <= i < |sig|
    ensures sig[i] == OptionalTextSlot
  {
  }
}
