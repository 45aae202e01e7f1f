/**
 * The client state of the dashboard (components/WikiDashboard.jsx) and its transitions:
 * loading the document list, opening, creating, editing, saving, cancelling, deleting and
 * restoring, the profile callback, and the effects that persist the identity overrides.
 * Each transition is a function on a snapshot of the state; the class's handlers update its
 * fields step by step and are proved to reach exactly that snapshot.
 */
module Dashboard {
  import opened Js
  import opened Seqs
  import opened Storage
  import opened Entities
  import opened Api
  import opened Permissions
  import opened Identity

  datatype Mode = View | Edit
  datatype Tab = DashboardTab | ProfileTab | UserListTab

  /** A snapshot of the dashboard's state fields, plus the requests it sent and the alerts it showed. */
  datatype DashState = DashState(
    documents: seq<Doc>,
    selectedDoc: Option<Doc>,
    editTitle: string,
    editContent: string,
    searchQuery: string,
    viewMode: Mode,
    loading: bool,
    activeView: Tab,
    displayName: string,
    avatarUrl: string,
    requests: seq<Request>,
    alerts: seq<string>)

  /** `markdownToHtml(md)`: '' for an empty text, otherwise the regex rewrite `render`, which is not modelled. */
  function MarkdownToHtml(render: string -> string, md: string): (r: string)
    ensures md == "" ==> r == ""
    ensures md != "" ==> r == render(md)
  {
    if md == "" then "" else render(md)
  }

  /** A reply that `apiCall` returned (did not throw) and whose body has a truthy `success`. */
  predicate Succeeded(reply: HttpReply) {
    ApiCall(reply).Success? && TruthyFlag(ApiCall(reply).value.success)
  }

  /** The document panels are on screen: loading is over and the dashboard tab is active. */
  predicate OnDashboard(s: DashState) {
    !s.loading && s.activeView == DashboardTab
  }

  /** `normalizedSelected`. */
  function Selected(s: DashState): Doc
    requires s.selectedDoc.Some?
  {
    NormalizeDoc(s.selectedDoc.value)
  }

  // ---- the buttons on screen ----

  predicate CardShown(s: DashState, d: Doc) {
    OnDashboard(s) && d in FilteredDocs(s.documents, s.searchQuery)
  }

  predicate CreateShown(user: User, s: DashState) {
    OnDashboard(s) && CanCreate(user)
  }

  predicate DeleteShown(user: User, s: DashState, d: Doc) {
    CardShown(s, d) && CanDelete(user, d)
  }

  /** The Edit button: a selected document the user may edit, in view mode. */
  predicate EditShown(user: User, s: DashState) {
    OnDashboard(s) && s.selectedDoc.Some? && CanEdit(user, Selected(s)) && s.viewMode == View
  }

  /** The Save and Cancel buttons (and the draft inputs): edit mode on a document the user may edit. */
  predicate SaveShown(user: User, s: DashState) {
    OnDashboard(s) && s.selectedDoc.Some? && s.viewMode == Edit && CanEdit(user, Selected(s))
  }

  /** The title input and the editor: edit mode with a selected document, whatever the rights. */
  predicate DraftShown(s: DashState) {
    OnDashboard(s) && s.selectedDoc.Some? && s.viewMode == Edit
  }

  /** The profile page, whose Save calls back into the dashboard. */
  predicate ProfileShown(s: DashState) {
    !s.loading && s.activeView == ProfileTab
  }

  /** The Restore button of a history entry. */
  predicate RestoreShown(user: User, s: DashState, rev: Revision) {
    OnDashboard(s) && s.selectedDoc.Some? && HistoryShown(user)
    && rev in History(user, Selected(s)) && RestoreOffered(user, Selected(s), rev)
  }

  // ---- the transitions ----

  /** `loadDocuments()`: a successful reply replaces the list; loading ends whatever happens. */
  function AfterLoad(s: DashState, reply: HttpReply): (t: DashState)
    ensures t == s.(requests := t.requests, documents := t.documents, loading := false)
    ensures t.requests == s.requests + [GetDocuments]
    ensures t.documents == if Succeeded(reply) then ApiCall(reply).value.documents.GetOr([]) else s.documents
  {
    var docs := if Succeeded(reply) then ApiCall(reply).value.documents.GetOr([]) else s.documents;
    s.(requests := s.requests + [GetDocuments], documents := docs, loading := false)
  }

  /** `loadDocument(id)` from a card: a successful reply selects the server's document in view mode. */
  function AfterOpen(s: DashState, d: Doc, reply: HttpReply): (t: DashState)
    ensures t.requests == s.requests + [GetDocument(d.id)]
    ensures Succeeded(reply) ==>
              t == s.(requests := t.requests, selectedDoc := ApiCall(reply).value.document,
                      viewMode := View, activeView := DashboardTab)
    ensures !Succeeded(reply) ==> t == s.(requests := t.requests)
  {
    var sent := s.(requests := s.requests + [GetDocument(d.id)]);
    if Succeeded(reply) then
      sent.(selectedDoc := ApiCall(reply).value.document, viewMode := View, activeView := DashboardTab)
    else sent
  }

  /**
   * `createDocument()`: on success reload, select the new document and open it in edit mode;
   * a success reply without a document fails at `res.document.title` after the selection was
   * cleared, and shows the alert.
   */
  function AfterCreate(s: DashState, render: string -> string, createReply: HttpReply, reloadReply: HttpReply): DashState {
    var sent := s.(requests := s.requests + [CreateDocument("New Document", "Start writing...")]);
    if ApiCall(createReply).Failure? then sent.(alerts := sent.alerts + ["Failed to create"])
    else if !TruthyFlag(ApiCall(createReply).value.success) then sent
    else
      var document := ApiCall(createReply).value.document;
      var loaded := AfterLoad(sent, reloadReply).(selectedDoc := document);
      match document
      case None => loaded.(alerts := loaded.alerts + ["Failed to create"])
      case Some(doc) =>
        loaded.(editTitle := doc.title, editContent := MarkdownToHtml(render, OrElse(doc.content, "")),
                viewMode := Edit, activeView := DashboardTab)
  }

  /** The Edit button: copy the title and the rendered content into the draft and enter edit mode. */
  function AfterEdit(s: DashState, render: string -> string): DashState
    requires s.selectedDoc.Some?
  {
    s.(editTitle := Selected(s).title,
       editContent := MarkdownToHtml(render, OrElse(Selected(s).content, "")),
       viewMode := Edit)
  }

  /** `updateDocument()`: send the draft; on success reload, take the server's document and return to view mode. */
  function AfterSave(s: DashState, updateReply: HttpReply, reloadReply: HttpReply): DashState
    requires s.selectedDoc.Some?
  {
    var sent := s.(requests := s.requests + [UpdateDocument(s.selectedDoc.value.id, s.editTitle, s.editContent)]);
    if ApiCall(updateReply).Failure? then sent.(alerts := sent.alerts + ["Failed to save"])
    else if TruthyFlag(ApiCall(updateReply).value.success) then
      AfterLoad(sent, reloadReply).(selectedDoc := ApiCall(updateReply).value.document, viewMode := View)
    else sent
  }

  /** `deleteDocument(id)`: after a confirmed, completed delete, reload and clear the selection if it was that id. */
  function AfterDelete(s: DashState, d: Doc, confirmed: bool, deleteReply: HttpReply, reloadReply: HttpReply): DashState {
    if !confirmed then s
    else
      var sent := s.(requests := s.requests + [DeleteDocument(d.id)]);
      if ApiCall(deleteReply).Failure? then sent.(alerts := sent.alerts + ["Failed to delete"])
      else
        var loaded := AfterLoad(sent, reloadReply);
        if loaded.selectedDoc.Some? && loaded.selectedDoc.value.id == d.id then loaded.(selectedDoc := None) else loaded
  }

  /** `restoreRevision(revId)`: after a confirmed, successful restore, reload and take the server's document. */
  function AfterRestore(s: DashState, rev: Revision, confirmed: bool, restoreReply: HttpReply, reloadReply: HttpReply): DashState
    requires s.selectedDoc.Some?
  {
    if !confirmed then s
    else
      var sent := s.(requests := s.requests + [RestoreRevision(s.selectedDoc.value.id, rev.id)]);
      if ApiCall(restoreReply).Failure? then sent.(alerts := sent.alerts + ["Failed to restore"])
      else if TruthyFlag(ApiCall(restoreReply).value.success) then
        AfterLoad(sent, reloadReply).(selectedDoc := ApiCall(restoreReply).value.document)
      else sent
  }

  /** `handleProfileUpdate(updatedUser)`: only a truthy name or avatar replaces the current one. */
  function AfterProfileUpdate(s: DashState, updated: User): DashState {
    s.(displayName := OrElse(updated.name, s.displayName), avatarUrl := OrElse(updated.avatarURL, s.avatarUrl))
  }

  /** An effect with dependency `value`: it runs (and persists) only when the value changed. */
  function PersistIfChanged(items: map<string, string>, prefix: string, email: Opt, before: string, after: string): map<string, string> {
    if before == after then items else Persist(items, prefix, email, after)
  }

  /** The props handed to Profile: `{ ...user, name: displayName || user.name, avatarURL: avatarUrl }`. */
  function ProfileProps(user: User, displayName: string, avatarUrl: string): (p: User)
    ensures p == user.(name := p.name, avatarURL := Some(avatarUrl))
    ensures p.name == if displayName != "" then Some(displayName) else user.name
  {
    user.(name := if displayName != "" then Some(displayName) else user.name, avatarURL := Some(avatarUrl))
  }

  // ---- properties of the transitions ----

  /** Edit is offered only in view mode to a user who may edit, and it copies the title into the draft. */
  lemma EditEntersEditMode(user: User, s: DashState, render: string -> string)
    requires EditShown(user, s)
    ensures AfterEdit(s, render).viewMode == Edit
    ensures AfterEdit(s, render).editTitle == s.selectedDoc.value.title
    ensures AfterEdit(s, render).selectedDoc == s.selectedDoc
    ensures s.selectedDoc.value.content.None? ==> AfterEdit(s, render).editContent == ""
  {
  }

  /**
   * Save: a successful reply makes the server's document the selection and returns to view
   * mode; a failed or unsuccessful one leaves the draft, the mode and the selection as they were.
   */
  lemma SaveOutcome(s: DashState, updateReply: HttpReply, reloadReply: HttpReply)
    requires s.selectedDoc.Some?
    ensures var t := AfterSave(s, updateReply, reloadReply);
            |t.requests| > |s.requests| && t.requests[|s.requests|] == UpdateDocument(s.selectedDoc.value.id, s.editTitle, s.editContent)
    ensures Succeeded(updateReply) ==>
              AfterSave(s, updateReply, reloadReply).selectedDoc == ApiCall(updateReply).value.document
              && AfterSave(s, updateReply, reloadReply).viewMode == View
    ensures !Succeeded(updateReply) ==>
              var t := AfterSave(s, updateReply, reloadReply);
              t.editTitle == s.editTitle && t.editContent == s.editContent
              && t.viewMode == s.viewMode && t.selectedDoc == s.selectedDoc && t.documents == s.documents
  {
  }

  /**
   * A confirmed restore sends one restore request for the selected document and the chosen
   * revision; a successful reply makes the server's document the selection, in the same mode;
   * otherwise the selection, the list and the mode stay, with the alert exactly on a failure.
   * The draft is never touched.
   */
  lemma RestoreOutcome(s: DashState, rev: Revision, restoreReply: HttpReply, reloadReply: HttpReply)
    requires s.selectedDoc.Some?
    ensures var t := AfterRestore(s, rev, true, restoreReply, reloadReply);
            |t.requests| > |s.requests| && t.requests[|s.requests|] == RestoreRevision(s.selectedDoc.value.id, rev.id)
            && t.viewMode == s.viewMode && t.editTitle == s.editTitle && t.editContent == s.editContent
    ensures Succeeded(restoreReply) ==>
              AfterRestore(s, rev, true, restoreReply, reloadReply).selectedDoc == ApiCall(restoreReply).value.document
    ensures !Succeeded(restoreReply) ==>
              var t := AfterRestore(s, rev, true, restoreReply, reloadReply);
              t.selectedDoc == s.selectedDoc && t.documents == s.documents
              && t.alerts == s.alerts + (if ApiCall(restoreReply).Failure? then ["Failed to restore"] else [])
  {
  }

  /** Delete clears the selection exactly when the deleted id is the selected id, and otherwise keeps it. */
  lemma DeleteClearsOnlyThatSelection(s: DashState, d: Doc, deleteReply: HttpReply, reloadReply: HttpReply)
    requires ApiCall(deleteReply).Success?
    ensures var t := AfterDelete(s, d, true, deleteReply, reloadReply);
            if s.selectedDoc.Some? && s.selectedDoc.value.id == d.id then t.selectedDoc == None
            else t.selectedDoc == s.selectedDoc
    ensures AfterDelete(s, d, true, deleteReply, reloadReply).viewMode == s.viewMode
  {
  }

  /** No request is sent and nothing changes unless the user confirms a delete or a restore. */
  lemma UnconfirmedChangesNothing(s: DashState, d: Doc, rev: Revision, r1: HttpReply, r2: HttpReply)
    ensures AfterDelete(s, d, false, r1, r2) == s
    ensures s.selectedDoc.Some? ==> AfterRestore(s, rev, false, r1, r2) == s
  {
  }

  /** The current revision (the last stored one) never has a Restore button, whatever the role. */
  lemma NoRestoreOfCurrent(user: User, s: DashState)
    requires s.selectedDoc.Some? && AllRevisions(Selected(s)) != []
    ensures !RestoreShown(user, s, AllRevisions(Selected(s))[|AllRevisions(Selected(s))| - 1])
  {
    CurrentIsLastStored(user, Selected(s), AllRevisions(Selected(s))[|AllRevisions(Selected(s))| - 1]);
  }

  /**
   * A profile save changes the display name or avatar only to a truthy value, so it can never
   * clear an override: a non-empty name stays non-empty and its storage key stays written.
   */
  lemma ProfileUpdateNeverClears(s: DashState, updated: User, items: map<string, string>, email: Opt)
    ensures s.displayName != "" ==> AfterProfileUpdate(s, updated).displayName != ""
    ensures AfterProfileUpdate(s, updated).displayName == (if Truthy(updated.name) then updated.name.value else s.displayName)
    ensures AfterProfileUpdate(s, updated).avatarUrl == (if Truthy(updated.avatarURL) then updated.avatarURL.value else s.avatarUrl)
    ensures var t := AfterProfileUpdate(s, updated);
            var after := PersistIfChanged(items, NamePrefix, email, s.displayName, t.displayName);
            Truthy(email) ==>
              (t.displayName != s.displayName ==> NameKey(email.value) in after && after[NameKey(email.value)] == t.displayName)
              && (t.displayName == s.displayName ==> after == items)
  {
  }

  /**
   * Create: a successful reply with a document selects it and opens it in edit mode on its own
   * title; a successful reply without one clears the selection and alerts; a failure only alerts.
   */
  lemma CreateOutcome(s: DashState, render: string -> string, createReply: HttpReply, reloadReply: HttpReply)
    ensures var t := AfterCreate(s, render, createReply, reloadReply);
            Succeeded(createReply) && ApiCall(createReply).value.document.Some? ==>
              t.selectedDoc == ApiCall(createReply).value.document && t.viewMode == Edit
              && t.editTitle == ApiCall(createReply).value.document.value.title && !t.loading
              && t.alerts == s.alerts
    ensures var t := AfterCreate(s, render, createReply, reloadReply);
            Succeeded(createReply) && ApiCall(createReply).value.document.None? ==>
              t.selectedDoc == None && t.alerts == s.alerts + ["Failed to create"] && t.viewMode == s.viewMode
    ensures var t := AfterCreate(s, render, createReply, reloadReply);
            ApiCall(createReply).Failure? ==>
              t == s.(requests := t.requests, alerts := s.alerts + ["Failed to create"])
  {
  }

  /**
   * The first render's effects write the effective name and avatar back under their keys, and
   * reading them again yields the same values; with no stored name, this pins the server's
   * name as the override.
   */
  lemma MountKeepsEffectiveValues(user: User, items: map<string, string>)
    requires Truthy(user.email)
    ensures var written := Persist(Persist(items, NamePrefix, user.email, DisplayName(user, items)),
                                   AvatarPrefix, user.email, AvatarUrl(user, items));
            DisplayName(user, written) == DisplayName(user, items) && AvatarUrl(user, written) == AvatarUrl(user, items)
    ensures !Truthy(Get(items, NameKey(user.email.value))) && Truthy(user.name) ==>
              var written := Persist(items, NamePrefix, user.email, DisplayName(user, items));
              NameKey(user.email.value) in written && written[NameKey(user.email.value)] == user.name.value
  {
  }

  /** The signed-in dashboard. */
  class WikiDashboard {
    const user: User
    const store: Store
    const render: string -> string

    var documents: seq<Doc>
    var selectedDoc: Option<Doc>
    var editTitle: string
    var editContent: string
    var searchQuery: string
    var viewMode: Mode
    var loading: bool
    var activeView: Tab
    var displayName: string
    var avatarUrl: string
    var requests: seq<Request>
    var alerts: seq<string>

    function State(): DashState
      reads this
    {
      DashState(documents, selectedDoc, editTitle, editContent, searchQuery, viewMode, loading,
                activeView, displayName, avatarUrl, requests, alerts)
    }

    /** The `useState` initialisers: nothing loaded yet, view mode, and the effective name and avatar. */
    constructor (user: User, store: Store, render: string -> string)
      ensures this.user == user && this.store == store && this.render == render
      ensures State() == DashState([], None, "", "", "", View, true, DashboardTab,
                                   DisplayName(user, store.items), AvatarUrl(user, store.items), [], [])
    {
      this.user := user;
      this.store := store;
      this.render := render;
      documents := [];
      selectedDoc := None;
      editTitle := "";
      editContent := "";
      searchQuery := "";
      viewMode := View;
      loading := true;
      activeView := DashboardTab;
      displayName := DisplayName(user, store.items);
      avatarUrl := AvatarUrl(user, store.items);
      requests := [];
      alerts := [];
    }

    /** The name effect: persist `displayName` under `name:<email>`. */
    method PersistDisplayName()
      modifies store
      ensures store.items == Persist(old(store.items), NamePrefix, user.email, displayName)
    {
      if Truthy(user.email) {
        var key := NamePrefix + user.email.value;
        if displayName != "" {
          store.SetItem(key, displayName);
        } else {
          store.RemoveItem(key);
        }
      }
    }

    /** The avatar effect: persist `avatarUrl` under `avatar:<email>`. */
    method PersistAvatarUrl()
      modifies store
      ensures store.items == Persist(old(store.items), AvatarPrefix, user.email, avatarUrl)
    {
      if Truthy(user.email) {
        var key := AvatarPrefix + user.email.value;
        if avatarUrl != "" {
          store.SetItem(key, avatarUrl);
        } else {
          store.RemoveItem(key);
        }
      }
    }

    /** `loadDocuments()`. */
    method LoadDocuments(reply: HttpReply)
      modifies this
      ensures State() == AfterLoad(old(State()), reply)
    {
      requests := requests + [GetDocuments];
      var call := ApiCall(reply);
      if call.Success? && TruthyFlag(call.value.success) {
        documents := call.value.documents.GetOr([]);
      }
      loading := false;
    }

    /** The effects of the first render: load the list and persist both overrides. */
    method Mount(listReply: HttpReply)
      modifies this, store
      ensures State() == AfterLoad(old(State()), listReply)
      ensures store.items == Persist(Persist(old(store.items), NamePrefix, user.email, displayName),
                                     AvatarPrefix, user.email, avatarUrl)
    {
      LoadDocuments(listReply);
      PersistDisplayName();
      PersistAvatarUrl();
    }

    /** A document card: open it. */
    method ClickCard(d: Doc, reply: HttpReply)
      modifies this
      ensures old(CardShown(State(), d)) ==> State() == AfterOpen(old(State()), d, reply)
      ensures !old(CardShown(State(), d)) ==> State() == old(State())
    {
      var shown := CardShown(State(), d);
      if shown {
        requests := requests + [GetDocument(d.id)];
        var call := ApiCall(reply);
        if call.Success? && TruthyFlag(call.value.success) {
          selectedDoc := call.value.document;
          viewMode := View;
          activeView := DashboardTab;
        }
      }
    }

    /** The Create button. */
    method ClickCreate(createReply: HttpReply, reloadReply: HttpReply)
      modifies this
      ensures old(CreateShown(user, State())) ==> State() == AfterCreate(old(State()), render, createReply, reloadReply)
      ensures !old(CreateShown(user, State())) ==> State() == old(State())
    {
      if CreateShown(user, State()) {
        requests := requests + [CreateDocument("New Document", "Start writing...")];
        var call := ApiCall(createReply);
        if call.Failure? {
          alerts := alerts + ["Failed to create"];
        } else if TruthyFlag(call.value.success) {
          LoadDocuments(reloadReply);
          selectedDoc := call.value.document;
          match call.value.document
          case None =>
            alerts := alerts + ["Failed to create"];
          case Some(doc) =>
            editTitle := doc.title;
            editContent := MarkdownToHtml(render, OrElse(doc.content, ""));
            viewMode := Edit;
            activeView := DashboardTab;
        }
      }
    }

    /** The Edit button. */
    method ClickEdit()
      modifies this
      ensures old(EditShown(user, State())) ==> State() == AfterEdit(old(State()), render)
      ensures !old(EditShown(user, State())) ==> State() == old(State())
    {
      if EditShown(user, State()) {
        var doc := NormalizeDoc(selectedDoc.value);
        editTitle := doc.title;
        editContent := MarkdownToHtml(render, OrElse(doc.content, ""));
        viewMode := Edit;
      }
    }

    /** Typing into the title input or the editor. */
    method TypeDraft(title: string, content: string)
      modifies this
      ensures old(DraftShown(State())) ==> State() == old(State()).(editTitle := title, editContent := content)
      ensures !old(DraftShown(State())) ==> State() == old(State())
    {
      if DraftShown(State()) {
        editTitle := title;
        editContent := content;
      }
    }

    /** The Save button. */
    method ClickSave(updateReply: HttpReply, reloadReply: HttpReply)
      modifies this
      ensures old(SaveShown(user, State())) ==> State() == AfterSave(old(State()), updateReply, reloadReply)
      ensures !old(SaveShown(user, State())) ==> State() == old(State())
    {
      if SaveShown(user, State()) {
        requests := requests + [UpdateDocument(selectedDoc.value.id, editTitle, editContent)];
        var call := ApiCall(updateReply);
        if call.Failure? {
          alerts := alerts + ["Failed to save"];
        } else if TruthyFlag(call.value.success) {
          LoadDocuments(reloadReply);
          selectedDoc := call.value.document;
          viewMode := View;
        }
      }
    }

    /** The Cancel button: back to view mode; the draft stays as it is. */
    method ClickCancel()
      modifies this
      ensures old(SaveShown(user, State())) ==> State() == old(State()).(viewMode := View)
      ensures !old(SaveShown(user, State())) ==> State() == old(State())
    {
      if SaveShown(user, State()) {
        viewMode := View;
      }
    }

    /** The delete button of a card, with the answer to `confirm`. */
    method ClickDelete(d: Doc, confirmed: bool, deleteReply: HttpReply, reloadReply: HttpReply)
      modifies this
      ensures old(DeleteShown(user, State(), d)) ==> State() == AfterDelete(old(State()), d, confirmed, deleteReply, reloadReply)
      ensures !old(DeleteShown(user, State(), d)) ==> State() == old(State())
    {
      var shown := DeleteShown(user, State(), d);
      if shown && confirmed {
        requests := requests + [DeleteDocument(d.id)];
        var call := ApiCall(deleteReply);
        if call.Failure? {
          alerts := alerts + ["Failed to delete"];
        } else {
          LoadDocuments(reloadReply);
          if selectedDoc.Some? && selectedDoc.value.id == d.id {
            selectedDoc := None;
          }
        }
      }
    }

    /** The Restore button of a history entry, with the answer to `confirm`. */
    method ClickRestore(rev: Revision, confirmed: bool, restoreReply: HttpReply, reloadReply: HttpReply)
      modifies this
      ensures old(RestoreShown(user, State(), rev)) ==>
                State() == AfterRestore(old(State()), rev, confirmed, restoreReply, reloadReply)
      ensures !old(RestoreShown(user, State(), rev)) ==> State() == old(State())
    {
      if RestoreShown(user, State(), rev) && confirmed {
        requests := requests + [RestoreRevision(selectedDoc.value.id, rev.id)];
        var call := ApiCall(restoreReply);
        if call.Failure? {
          alerts := alerts + ["Failed to restore"];
        } else if TruthyFlag(call.value.success) {
          LoadDocuments(reloadReply);
          selectedDoc := call.value.document;
        }
      }
    }

    /** `handleProfileUpdate`, called by the profile page's Save, followed by the effects whose value changed. */
    method ProfileUpdate(updated: User)
      modifies this, store
      ensures old(ProfileShown(State())) ==> State() == AfterProfileUpdate(old(State()), updated)
      ensures old(ProfileShown(State())) ==>
                store.items == PersistIfChanged(
                  PersistIfChanged(old(store.items), NamePrefix, user.email, old(displayName), displayName),
                  AvatarPrefix, user.email, old(avatarUrl), avatarUrl)
      ensures !old(ProfileShown(State())) ==> State() == old(State()) && store.items == old(store.items)
    {
      if ProfileShown(State()) {
        var nameBefore, avatarBefore := displayName, avatarUrl;
        if Truthy(updated.name) {
          displayName := updated.name.value;
        }
        if Truthy(updated.avatarURL) {
          avatarUrl := updated.avatarURL.value;
        }
        if displayName != nameBefore {
          PersistDisplayName();
        }
        if avatarUrl != avatarBefore {
          PersistAvatarUrl();
        }
      }
    }

    /** The header tabs; the User List tab exists only for an admin. */
    method SelectTab(tab: Tab)
      modifies this
      ensures old(!loading) && (tab == UserListTab ==> IsAdmin(user)) ==> State() == old(State()).(activeView := tab)
      ensures !(old(!loading) && (tab == UserListTab ==> IsAdmin(user))) ==> State() == old(State())
    {
      if !loading && (tab == UserListTab ==> IsAdmin(user)) {
        activeView := tab;
      }
    }

    /** The search box. */
    method Search(query: string)
      modifies this
      ensures old(OnDashboard(State())) ==> State() == old(State()).(searchQuery := query)
      ensures !old(OnDashboard(State())) ==> State() == old(State())
    {
      if OnDashboard(State()) {
        searchQuery := query;
      }
    }
  }
}
