/** The client-side session store: the list of the user's sessions, the
    session being edited, and the loading and error flags, kept in step with
    the server's CRUD calls. */
module SessionStore {
  import opened Wrappers

  /** The component a session is currently editing. */
  datatype Component = Component(jsxCode: string, cssCode: string, metadata: map<string, string>, version: int)

  /** `Partial<Component>`: the fields a caller supplies. */
  datatype ComponentPatch = ComponentPatch(jsxCode: Option<string>, cssCode: Option<string>,
                                           metadata: Option<map<string, string>>, version: Option<int>)

  datatype ChatEntry = ChatEntry(role: string, content: string)

  datatype Session = Session(id: string, title: string, chatLog: seq<ChatEntry>, currentComponent: Component)

  const LoadFailed := "Failed to load sessions"
  const CreateFailed := "Failed to create session"
  const UpdateFailed := "Failed to update session"
  const DeleteFailed := "Failed to delete session"

  /** `currentSession?.id === id`. */
  predicate HasId(current: Option<Session>, id: string) {
    current.Some? && current.value.id == id
  }

  /** `sessions.map(s => s.id === id ? updated : s)`. */
  function ReplaceById(sessions: seq<Session>, id: string, updated: Session): (r: seq<Session>)
    ensures |r| == |sessions|
    ensures forall i :: 0 <= i < |r| ==> r[i] == (if sessions[i].id == id then updated else sessions[i])
    decreases |sessions|
  {
    if sessions == [] then []
    else [if sessions[0].id == id then updated else sessions[0]] + ReplaceById(sessions[1..], id, updated)
  }

  /** A list without the id is left as it is. */
  lemma ReplaceByIdAbsent(sessions: seq<Session>, id: string, updated: Session)
    requires forall i :: 0 <= i < |sessions| ==> sessions[i].id != id
    ensures ReplaceById(sessions, id, updated) == sessions
  {
  }

  /** Replacing with a session of the same id is idempotent and keeps the
      list's ids. */
  lemma ReplaceByIdSameId(sessions: seq<Session>, id: string, updated: Session)
    requires updated.id == id
    ensures ReplaceById(ReplaceById(sessions, id, updated), id, updated) == ReplaceById(sessions, id, updated)
    ensures forall i :: 0 <= i < |sessions| ==> ReplaceById(sessions, id, updated)[i].id == sessions[i].id
  {
  }

  /** `sessions.filter(s => s.id !== id)`. */
  function DeleteById(sessions: seq<Session>, id: string): (r: seq<Session>)
    ensures |r| <= |sessions|
    ensures forall i :: 0 <= i < |r| ==> r[i].id != id
    decreases |sessions|
  {
    if sessions == [] then []
    else if sessions[0].id == id then DeleteById(sessions[1..], id)
    else [sessions[0]] + DeleteById(sessions[1..], id)
  }

  /** A session survives deletion exactly when it was there and has another
      id. */
  lemma {:induction false} DeleteByIdMembers(sessions: seq<Session>, id: string, s: Session)
    ensures s in DeleteById(sessions, id) <==> s in sessions && s.id != id
    decreases |sessions|
  {
    if sessions != [] {
      DeleteByIdMembers(sessions[1..], id, s);
      assert sessions == [sessions[0]] + sessions[1..];
    }
  }

  /** Deleting an id no entry has changes nothing. */
  lemma {:induction false} DeleteByIdAbsent(sessions: seq<Session>, id: string)
    requires forall i :: 0 <= i < |sessions| ==> sessions[i].id != id
    ensures DeleteById(sessions, id) == sessions
    decreases |sessions|
  {
    if sessions != [] {
      DeleteByIdAbsent(sessions[1..], id);
      assert [sessions[0]] + sessions[1..] == sessions;
    }
  }

  /** Deleting is idempotent. */
  lemma DeleteByIdTwice(sessions: seq<Session>, id: string)
    ensures DeleteById(DeleteById(sessions, id), id) == DeleteById(sessions, id)
  {
    DeleteByIdAbsent(DeleteById(sessions, id), id);
  }

  /** Deleting works piecewise on a split list, so the survivors keep their
      relative order. */
  lemma {:induction false} DeleteByIdConcat(a: seq<Session>, b: seq<Session>, id: string)
    ensures DeleteById(a + b, id) == DeleteById(a, id) + DeleteById(b, id)
    decreases |a|
  {
    if a == [] {
      assert a + b == b;
    } else {
      DeleteByIdConcat(a[1..], b, id);
      assert (a + b)[0] == a[0] && (a + b)[1..] == a[1..] + b;
      if a[0].id == id {
        assert DeleteById(a + b, id) == DeleteById(a[1..] + b, id);
        assert DeleteById(a, id) == DeleteById(a[1..], id);
      } else {
        assert DeleteById(a + b, id) == [a[0]] + DeleteById(a[1..] + b, id);
        assert DeleteById(a, id) == [a[0]] + DeleteById(a[1..], id);
      }
    }
  }

  /** Deleting keeps every occurrence of every other session. */
  lemma {:induction false} DeleteByIdKeepsOthers(sessions: seq<Session>, id: string, s: Session)
    requires s.id != id
    ensures multiset(DeleteById(sessions, id))[s] == multiset(sessions)[s]
    decreases |sessions|
  {
    if sessions != [] {
      DeleteByIdKeepsOthers(sessions[1..], id, s);
      assert sessions == [sessions[0]] + sessions[1..];
    }
  }

  /** `{...component, ...patch}`: every supplied field overrides, every other
      field is kept. */
  function MergeComponent(c: Component, patch: ComponentPatch): (r: Component)
    ensures r.jsxCode == patch.jsxCode.GetOr(c.jsxCode)
    ensures r.cssCode == patch.cssCode.GetOr(c.cssCode)
    ensures r.metadata == patch.metadata.GetOr(c.metadata)
    ensures r.version == patch.version.GetOr(c.version)
  {
    Component(patch.jsxCode.GetOr(c.jsxCode), patch.cssCode.GetOr(c.cssCode),
              patch.metadata.GetOr(c.metadata), patch.version.GetOr(c.version))
  }

  /** An empty patch changes nothing, and applying a patch twice is applying
      it once. */
  lemma MergeComponentLaws(c: Component, patch: ComponentPatch)
    ensures MergeComponent(c, ComponentPatch(None, None, None, None)) == c
    ensures MergeComponent(MergeComponent(c, patch), patch) == MergeComponent(c, patch)
  {
  }

  /** The store. */
  class Store {
    var sessions: seq<Session>
    var currentSession: Option<Session>
    var isLoading: bool
    var error: Option<string>

    constructor()
      ensures sessions == [] && currentSession == None && !isLoading && error == None
    {
      sessions := [];
      currentSession := None;
      isLoading := false;
      error := None;
    }

    /** `set({ isLoading: true, error: null })`, the first step of every
        remote action. */
    method BeginRequest()
      modifies this
      ensures isLoading && error == None
      ensures sessions == old(sessions) && currentSession == old(currentSession)
    {
      isLoading := true;
      error := None;
    }

    /** The catch block of every remote action. */
    method Fail(serverMessage: Option<string>, fallback: string)
      modifies this
      ensures !isLoading && error == Some(OrElse(serverMessage, fallback))
      ensures sessions == old(sessions) && currentSession == old(currentSession)
    {
      error := Some(OrElse(serverMessage, fallback));
      isLoading := false;
    }

    /** `loadSessions`: the server's list replaces the local one; a failure is
        recorded and not rethrown. */
    method LoadSessions(response: Outcome<seq<Session>>)
      modifies this
      ensures !isLoading && currentSession == old(currentSession)
      ensures response.Success? ==> sessions == response.value && error == None
      ensures response.Failure? ==> (sessions == old(sessions)
                                  && error == Some(OrElse(response.serverMessage, LoadFailed)))
    {
      BeginRequest();
      match response
      case Success(list) =>
        sessions := list;
        isLoading := false;
      case Failure(message) =>
        Fail(message, LoadFailed);
    }

    /** `createSession`: the new session is appended and becomes current; a
        failure is recorded and rethrown. */
    method CreateSession(response: Outcome<Session>) returns (thrown: bool)
      modifies this
      ensures !isLoading && thrown == response.Failure?
      ensures response.Success? ==> (sessions == old(sessions) + [response.value]
                                  && currentSession == Some(response.value) && error == None)
      ensures response.Failure? ==> (sessions == old(sessions) && currentSession == old(currentSession)
                                  && error == Some(OrElse(response.serverMessage, CreateFailed)))
    {
      BeginRequest();
      match response
      case Success(created) =>
        sessions := sessions + [created];
        currentSession := Some(created);
        isLoading := false;
        thrown := false;
      case Failure(message) =>
        Fail(message, CreateFailed);
        thrown := true;
    }

    /** `updateSession`: every entry with the id is replaced by the server's
        copy, and so is the current session when it has the id; a failure is
        recorded and rethrown. */
    method UpdateSession(sessionId: string, response: Outcome<Session>) returns (thrown: bool)
      modifies this
      ensures !isLoading && thrown == response.Failure?
      ensures response.Success? ==> (sessions == ReplaceById(old(sessions), sessionId, response.value)
                                  && error == None
                                  && currentSession == (if HasId(old(currentSession), sessionId)
                                                        then Some(response.value) else old(currentSession)))
      ensures response.Failure? ==> (sessions == old(sessions) && currentSession == old(currentSession)
                                  && error == Some(OrElse(response.serverMessage, UpdateFailed)))
    {
      BeginRequest();
      match response
      case Success(updated) =>
        sessions := ReplaceById(sessions, sessionId, updated);
        if HasId(currentSession, sessionId) {
          currentSession := Some(updated);
        }
        isLoading := false;
        thrown := false;
      case Failure(message) =>
        Fail(message, UpdateFailed);
        thrown := true;
    }

    /** `deleteSession`: every entry with the id goes, and the current session
        is cleared when it has the id; a failure is recorded and not
        rethrown. */
    method DeleteSession(sessionId: string, response: Outcome<()>)
      modifies this
      ensures !isLoading
      ensures response.Success? ==> (sessions == DeleteById(old(sessions), sessionId)
                                  && error == None
                                  && currentSession == (if HasId(old(currentSession), sessionId)
                                                        then None else old(currentSession)))
      ensures response.Failure? ==> (sessions == old(sessions) && currentSession == old(currentSession)
                                  && error == Some(OrElse(response.serverMessage, DeleteFailed)))
    {
      BeginRequest();
      match response
      case Success(_) =>
        sessions := DeleteById(sessions, sessionId);
        if HasId(currentSession, sessionId) {
          currentSession := None;
        }
        isLoading := false;
      case Failure(message) =>
        Fail(message, DeleteFailed);
    }

    method SetCurrentSession(session: Option<Session>)
      modifies this
      ensures currentSession == session
      ensures sessions == old(sessions) && isLoading == old(isLoading) && error == old(error)
    {
      currentSession := session;
    }

    /** `updateCurrentComponent`: the patch is merged into the current
        session's component; a missing current session stays missing, and
        the session list is not touched. */
    method UpdateCurrentComponent(patch: ComponentPatch)
      modifies this
      ensures old(currentSession).None? ==> currentSession.None?
      ensures old(currentSession).Some? ==>
        currentSession == Some(old(currentSession).value.(currentComponent :=
                                 MergeComponent(old(currentSession).value.currentComponent, patch)))
      ensures sessions == old(sessions) && isLoading == old(isLoading) && error == old(error)
    {
      if currentSession.Some? {
        var s := currentSession.value;
        currentSession := Some(s.(currentComponent := MergeComponent(s.currentComponent, patch)));
      }
    }

    method ClearError()
      modifies this
      ensures error == None
      ensures sessions == old(sessions) && currentSession == old(currentSession) && isLoading == old(isLoading)
    {
      error := None;
    }

    method SetLoading(loading: bool)
      modifies this
      ensures isLoading == loading
      ensures sessions == old(sessions) && currentSession == old(currentSession) && error == old(error)
    {
      isLoading := loading;
    }
  }
}
