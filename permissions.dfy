/**
 * The document access policy of the dashboard (components/WikiDashboard.jsx): who may edit,
 * delete and create, which revisions a role sees, which revision is current, when Restore is
 * offered, how documents are normalised and how the title search filters them.
 * Everything here is a pure function of the signed-in user and the server's document.
 */
module Permissions {
  import opened Js
  import opened Text
  import opened Seqs
  import opened Entities

  predicate IsAdmin(user: User) {
    user.role == Some(Admin)
  }

  /** `canEdit(doc)`: the admin, or the owner; `===` on two missing emails is true. */
  predicate CanEdit(user: User, doc: Doc) {
    IsAdmin(user) || doc.ownerEmail == user.email
  }

  /** `canDelete(doc)`, written separately in the source with the same rule. */
  predicate CanDelete(user: User, doc: Doc) {
    IsAdmin(user) || doc.ownerEmail == user.email
  }

  /** `canCreate()`: everyone but a viewer, including a user whose role is missing or unknown. */
  predicate CanCreate(user: User) {
    user.role != Some(Viewer)
  }

  /** Delete and edit rights coincide for every user and document. */
  lemma DeleteRightIsEditRight(user: User, doc: Doc)
    ensures CanDelete(user, doc) == CanEdit(user, doc)
  {
  }

  /**
   * Ownership, not role, gives a non-admin edit rights: a viewer may edit the documents it owns
   * although it may not create one, and no non-admin may edit a document owned by another email.
   */
  lemma EditRightsByOwnership(user: User, doc: Doc)
    ensures user.role == Some(Viewer) && doc.ownerEmail == user.email ==> CanEdit(user, doc) && !CanCreate(user)
    ensures !IsAdmin(user) && doc.ownerEmail != user.email ==> !CanEdit(user, doc) && !CanDelete(user, doc)
    ensures user.email.None? && doc.ownerEmail.None? ==> CanEdit(user, doc)
  {
  }

  /** `doc.revisions || []`: a missing list reads as empty (an empty array is truthy and stays). */
  function AllRevisions(doc: Doc): seq<Revision> {
    doc.revisions.GetOr([])
  }

  /** `rev.authorEmail || rev.author_email`. */
  function AuthorEmail(rev: Revision): Opt {
    Or(rev.authorEmail, rev.author_email)
  }

  /** The editor's test `email && email === user.email`. */
  predicate Authored(email: Opt, rev: Revision) {
    Truthy(AuthorEmail(rev)) && AuthorEmail(rev) == email
  }

  function AuthoredBy(email: Opt): Revision -> bool {
    rev => Authored(email, rev)
  }

  /**
   * `getVisibleRevisions(doc)`: an admin sees the stored list as it is; an editor sees exactly
   * the revisions it authored, in stored order; any other role sees nothing.
   */
  function VisibleRevisions(user: User, doc: Doc): (r: seq<Revision>)
    ensures IsSubseq(r, AllRevisions(doc))
    ensures IsAdmin(user) ==> r == AllRevisions(doc)
    ensures user.role == Some(Editor) ==>
              |r| == |Positions(AllRevisions(doc), AuthoredBy(user.email))|
              && forall k :: 0 <= k < |r| ==>
                   r[k] == AllRevisions(doc)[Positions(AllRevisions(doc), AuthoredBy(user.email))[k]]
    ensures user.role == Some(Editor) ==> forall k :: 0 <= k < |r| ==> Authored(user.email, r[k])
    ensures user.role != Some(Admin) && user.role != Some(Editor) ==> r == []
  {
    var all := AllRevisions(doc);
    if IsAdmin(user) then
      SubseqRefl(all);
      all
    else if user.role == Some(Editor) then
      FilterIsSubseq(all, AuthoredBy(user.email));
      FilterAtPositions(all, AuthoredBy(user.email));
      Filter(all, AuthoredBy(user.email))
    else
      []
  }

  /** An editor with no email, or any viewer, sees no revision whatever the document holds. */
  lemma NoHistoryWithoutAuthorship(user: User, doc: Doc)
    ensures user.role == Some(Viewer) ==> VisibleRevisions(user, doc) == []
    ensures user.role == Some(Editor) && !Truthy(user.email) ==> VisibleRevisions(user, doc) == []
  {
  }

  /** `latestRevisionId`: null for an empty list, else the id of the last stored revision. */
  datatype LatestId = NoLatest | LatestRevision(id: Opt)

  function LatestRevisionId(doc: Doc): (r: LatestId)
    ensures r == NoLatest <==> AllRevisions(doc) == []
    ensures r.LatestRevision? ==> r.id == AllRevisions(doc)[|AllRevisions(doc)| - 1].id
  {
    var all := AllRevisions(doc);
    if |all| > 0 then LatestRevision(all[|all| - 1].id) else NoLatest
  }

  /** `rev._id === latestRevisionId`: the "(Current)" label. */
  predicate IsCurrent(doc: Doc, rev: Revision) {
    LatestRevisionId(doc) == LatestRevision(rev.id)
  }

  /** The Restore button of a history entry: not the current id, and the user may edit. */
  predicate RestoreOffered(user: User, doc: Doc, rev: Revision) {
    !IsCurrent(doc, rev) && CanEdit(user, doc)
  }

  /** The history panel is rendered for every role except viewer. */
  predicate HistoryShown(user: User) {
    user.role != Some(Viewer)
  }

  /** `[...visibleRevisions].reverse()`: the visible revisions, most recent first. */
  function History(user: User, doc: Doc): seq<Revision> {
    Reverse(VisibleRevisions(user, doc))
  }

  /**
   * "Current" is defined on the unfiltered stored order, not on the filtered or reversed view:
   * the last stored revision is labelled current and is never offered for restore, whoever
   * looks; any other id is offered exactly when the user may edit.
   */
  lemma CurrentIsLastStored(user: User, doc: Doc, rev: Revision)
    ensures AllRevisions(doc) == [] ==> !IsCurrent(doc, rev) && (RestoreOffered(user, doc, rev) <==> CanEdit(user, doc))
    ensures AllRevisions(doc) != [] ==>
              var last := AllRevisions(doc)[|AllRevisions(doc)| - 1];
              IsCurrent(doc, last) && !RestoreOffered(user, doc, last)
              && (RestoreOffered(user, doc, rev) <==> rev.id != last.id && CanEdit(user, doc))
  {
  }

  /** `normalizeDoc`: each camelCase field keeps a truthy value and otherwise takes its snake_case twin. */
  function NormalizeDoc(doc: Doc): (r: Doc)
    ensures r == doc.(ownerEmail := r.ownerEmail, ownerName := r.ownerName, updatedAt := r.updatedAt,
                      createdAt := r.createdAt, isPublic := r.isPublic, lastEditedBy := r.lastEditedBy)
    ensures r.ownerEmail == (if Truthy(doc.ownerEmail) then doc.ownerEmail else doc.owner_email)
    ensures r.ownerName == (if Truthy(doc.ownerName) then doc.ownerName else doc.owner_name)
    ensures r.updatedAt == (if Truthy(doc.updatedAt) then doc.updatedAt else doc.updated_at)
    ensures r.createdAt == (if Truthy(doc.createdAt) then doc.createdAt else doc.created_at)
    ensures r.isPublic == (if TruthyFlag(doc.isPublic) then doc.isPublic else doc.is_public)
    ensures r.lastEditedBy == (if Truthy(doc.lastEditedBy) then doc.lastEditedBy else doc.last_edited_by)
  {
    doc.(ownerEmail := Or(doc.ownerEmail, doc.owner_email),
         ownerName := Or(doc.ownerName, doc.owner_name),
         updatedAt := Or(doc.updatedAt, doc.updated_at),
         createdAt := Or(doc.createdAt, doc.created_at),
         isPublic := OrFlag(doc.isPublic, doc.is_public),
         lastEditedBy := Or(doc.lastEditedBy, doc.last_edited_by))
  }

  /** Normalising twice is normalising once, so the dashboard may normalise an already normalised document. */
  lemma NormalizeIdempotent(doc: Doc)
    ensures NormalizeDoc(NormalizeDoc(doc)) == NormalizeDoc(doc)
  {
  }

  /** The search test `d.title.toLowerCase().includes(searchQuery.toLowerCase())`. */
  predicate TitleMatch(query: string, d: Doc) {
    Includes(Lower(d.title), Lower(query))
  }

  function TitleMatches(query: string): Doc -> bool {
    d => TitleMatch(query, d)
  }

  /** The test is a case-insensitive substring test. */
  lemma TitleMatchIff(query: string, d: Doc)
    ensures TitleMatch(query, d) ==> exists i :: OccursAt(Lower(d.title), Lower(query), i)
    ensures (exists i :: OccursAt(Lower(d.title), Lower(query), i)) ==> TitleMatch(query, d)
  {
    var title, q := Lower(d.title), Lower(query);
    IncludesIffOccurs(title, q);
    if TitleMatch(query, d) {
      var k :| OccursAt(title, q, k);
      assert OccursAt(Lower(d.title), Lower(query), k);
    }
  }

  /** `filteredDocs`: the normalised documents whose title matches, in list order. */
  function FilteredDocs(docs: seq<Doc>, query: string): seq<Doc> {
    Filter(Map(NormalizeDoc, docs), TitleMatches(query))
  }

  /**
   * The search keeps exactly the normalised documents whose title matches, in list order.
   */
  lemma FilteredDocsExact(docs: seq<Doc>, query: string)
    ensures var r := FilteredDocs(docs, query);
            IsSubseq(r, Map(NormalizeDoc, docs))
            && (forall k :: 0 <= k < |r| ==> r[k] in Map(NormalizeDoc, docs) && TitleMatch(query, r[k]))
            && (forall k :: 0 <= k < |docs| && TitleMatch(query, docs[k]) ==> NormalizeDoc(docs[k]) in r)
  {
    var normalized := Map(NormalizeDoc, docs);
    var r := Filter(normalized, TitleMatches(query));
    FilterIsSubseq(normalized, TitleMatches(query));
    forall k | 0 <= k < |docs| && TitleMatch(query, docs[k])
      ensures NormalizeDoc(docs[k]) in r
    {
      assert normalized[k] == NormalizeDoc(docs[k]);
      assert TitleMatches(query)(normalized[k]);
    }
  }

  /** The documents the search keeps are those at the matching positions, in increasing order. */
  lemma FilteredDocsAtPositions(docs: seq<Doc>, query: string)
    ensures var r := FilteredDocs(docs, query);
            var at := Positions(Map(NormalizeDoc, docs), TitleMatches(query));
            |r| == |at| && forall k :: 0 <= k < |r| ==> r[k] == NormalizeDoc(docs[at[k]])
  {
    var normalized := Map(NormalizeDoc, docs);
    FilterAtPositions(normalized, TitleMatches(query));
  }

  /** An empty query matches every title, so the search keeps every document. */
  lemma EmptyQueryKeepsAll(docs: seq<Doc>)
    ensures FilteredDocs(docs, "") == Map(NormalizeDoc, docs)
  {
    FilterAll(Map(NormalizeDoc, docs), TitleMatches(""));
  }
}
