/** The admin guard around every dashboard page. */
module DashboardLayout {
  import opened Wrappers
  import opened Js

  const LoginPath: string := "/login"

  /** The outcome of reading `users/<uid>`: a rejected read, no such document, or its fields. */
  datatype UserDocument = ReadRejected | NoDocument | Document(data: Record)

  /** `userDoc.exists() && userDoc.data().role === "admin"` */
  predicate IsAdminDocument(d: UserDocument)
  {
    d.Document? && Field(d.data, "role") == Str("admin")
  }

  /** The layout's state, the redirects it has issued and the user documents it has read. */
  class AdminGuard {
    var loading: bool
    var isAdmin: bool
    var redirects: seq<string>
    var documentReads: seq<string>

    constructor ()
      ensures loading && !isAdmin && redirects == [] && documentReads == []
    {
      loading := true;
      isAdmin := false;
      redirects := [];
      documentReads := [];
    }

    /** The children are rendered only once the check has finished. */
    predicate RendersChildren()
      reads this
    {
      !loading
    }

    /**
     * `checkAdmin()`: with no signed-in user, a redirect to the login page and
     * nothing else (the page keeps showing the permission check). Otherwise
     * the user's document is read; an admin document sets `isAdmin`, anything
     * else redirects; either way `loading` is then cleared. A rejected read
     * stops the check before any of that.
     */
    method CheckAdmin(user: Option<string>, document: UserDocument)
      modifies this
      ensures user.None? ==>
        redirects == old(redirects) + [LoginPath] && documentReads == old(documentReads)
        && loading == old(loading) && isAdmin == old(isAdmin)
      ensures user.Some? ==> documentReads == old(documentReads) + [user.value]
      ensures user.Some? && document.ReadRejected? ==>
        redirects == old(redirects) && loading == old(loading) && isAdmin == old(isAdmin)
      ensures user.Some? && !document.ReadRejected? ==> !loading && RendersChildren()
      ensures user.Some? && IsAdminDocument(document) ==> isAdmin && redirects == old(redirects)
      ensures user.Some? && !document.ReadRejected? && !IsAdminDocument(document) ==>
        redirects == old(redirects) + [LoginPath] && isAdmin == old(isAdmin)
      // `isAdmin` is switched on only by an admin document.
      ensures isAdmin && !old(isAdmin) ==> user.Some? && IsAdminDocument(document)
    {
      if user.None? {
        redirects := redirects + [LoginPath];
        return;
      }
      documentReads := documentReads + [user.value];
      if document.ReadRejected? {
        return;
      }
      if IsAdminDocument(document) {
        isAdmin := true;
      } else {
        redirects := redirects + [LoginPath];
      }
      loading := false;
    }
  }
}
