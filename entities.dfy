/** The JSON records the frontend receives from the server. Field names follow the server's JSON keys, except that `_id` is `id`. */
module Entities {
  import opened Js

  /** A user as the frontend holds it (login reply, `/auth/me`, `/users`). */
  datatype User = User(id: Opt, name: Opt, email: Opt, role: Opt, avatarURL: Opt)

  /** One entry of a document's revision history; the server may send the author's email in either spelling. */
  datatype Revision = Revision(id: Opt, authorEmail: Opt, author_email: Opt, authorName: Opt, createdAt: Opt, changes: Opt)

  /**
   * A document. The server may send each metadata field camelCased or snake_cased;
   * `revisions` is None when the field is missing.
   */
  datatype Doc = Doc(
    id: Opt,
    title: string,
    content: Opt,
    ownerEmail: Opt, owner_email: Opt,
    ownerName: Opt, owner_name: Opt,
    updatedAt: Opt, updated_at: Opt,
    createdAt: Opt, created_at: Opt,
    isPublic: Option<bool>, is_public: Option<bool>,
    lastEditedBy: Opt, last_edited_by: Opt,
    revisions: Option<seq<Revision>>)

  /** The role names the client compares against. */
  const Admin := "admin"
  const Editor := "editor"
  const Viewer := "viewer"
}
