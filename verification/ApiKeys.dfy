/** API keys: one remote key per journaled name, through crashes, lost replies and failed writes. */
module ApiKeys {
  import opened Outcomes

  type KeyId = nat
  type Secret = nat

  datatype Reason =
    | StateIncomplete
    | MetadataFileExists
    | MetadataFileInvalid
    | MetadataMismatch
    | MetadataRevoked
    | MetadataRemoteMismatch
    | RemoteNameConflict
    | RecoveryRemoteMissing
    | KeyOutputExists
    | KeyFileInvalid
    | AuthenticationFailed
    | Unreachable
    | WriteFailed
    | ConfirmationMismatch
    | MetadataRequired

  type Outcome<+T> = Result<T, Reason>

  /** What the operator asks for; the same for every rerun. */
  datatype Request = Request(team: string, title: string, output: string, uid: nat, gid: nat)

  datatype Intent = Intent(request: Request, operation: string) {
    function RemoteName(): string {
      request.title + "--kitdev-" + operation
    }
  }

  /** The local journal of one key. */
  datatype Metadata =
    | Creating(intent: Intent)
    | Active(intent: Intent, keyId: KeyId, description: string)
    | Revoked(intent: Intent, keyId: KeyId, description: string)

  datatype RemoteKey = RemoteKey(name: string, secret: Secret, description: string)

  datatype KeyResult = Created(keyId: KeyId) | Recovered(keyId: KeyId) | Existing(keyId: KeyId)

  /**
   * What befalls one coming request or local write. A lost reply follows an applied request;
   * a late error follows a completed local write.
   */
  datatype Event = Pass | EarlyError | LostReply | LateError | KillBefore | KillAfter

  /** Live keys of one name. */
  function Named(server: map<KeyId, RemoteKey>, name: string): set<KeyId> {
    set id | id in server && server[id].name == name
  }

  predicate Authenticates(server: map<KeyId, RemoteKey>, secret: Secret) {
    exists id :: id in server && server[id].secret == secret
  }

  /** Ids and secrets are never issued twice. */
  predicate ServerSane(server: map<KeyId, RemoteKey>, issued: nat) {
    && (forall id :: id in server ==> id < issued && server[id].secret < issued)
    && (forall a, b :: a in server && b in server && server[a].secret == server[b].secret ==> a == b)
  }

  datatype State = State(metadata: Option<Metadata>, keyFile: Option<Secret>, server: map<KeyId, RemoteKey>,
                         issued: nat)

  /** The one live key of the name, with the secret the file holds. */
  predicate Holds(s: State, name: string, id: KeyId) {
    Named(s.server, name) == {id} && id in s.server && s.keyFile == Some(s.server[id].secret)
  }

  predicate Legal(r: Request, s: State) {
    && ServerSane(s.server, s.issued)
    && match s.metadata
       case None => s.keyFile.None?
       case Some(Creating(i)) =>
         && i.request == r
         && (s.keyFile.None? ==>
               forall a, b :: a in Named(s.server, i.RemoteName()) && b in Named(s.server, i.RemoteName()) ==> a == b)
         && (s.keyFile.Some? ==>
               Named(s.server, i.RemoteName()) == {} || exists id :: id in s.server && Holds(s, i.RemoteName(), id))
       case Some(Active(i, id, d)) =>
         && i.request == r && s.keyFile.Some? && id < s.issued
         && (if id in s.server then Holds(s, i.RemoteName(), id) && s.server[id].description == d
             else Named(s.server, i.RemoteName()) == {})
       case Some(Revoked(i, id, _)) =>
         i.request == r && id !in s.server && id < s.issued && Named(s.server, i.RemoteName()) == {}
  }

  /** A key file whose remote key is gone while the journal still says creating. */
  predicate Stranded(s: State) {
    s.metadata.Some? && s.metadata.value.Creating? && s.keyFile.Some?
    && Named(s.server, s.metadata.value.intent.RemoteName()) == {}
  }

  /** Created, recorded and usable. */
  predicate Complete(s: State) {
    && s.metadata.Some? && s.metadata.value.Active?
    && var m := s.metadata.value;
       Holds(s, m.intent.RemoteName(), m.keyId) && s.server[m.keyId].description == m.description
  }

  predicate CanCreate(s: State) {
    match s.metadata
    case None => true
    case Some(Creating(_)) => !Stranded(s)
    case Some(Active(_, _, _)) => Complete(s)
    case Some(Revoked(_, _, _)) => false
  }

  /** The journal only moves forward, for one operation. */
  predicate Advances(before: Option<Metadata>, after: Option<Metadata>) {
    match before
    case None => true
    case Some(Creating(i)) => after.Some? && after.value.intent == i
    case Some(Active(i, id, d)) => after == before || after == Some(Revoked(i, id, d))
    case Some(Revoked(_, _, _)) => after == before
  }

  class Manager {
    var metadata: Option<Metadata>
    var keyFile: Option<Secret>
    var server: map<KeyId, RemoteKey>
    var issued: nat
    var events: seq<Event>
    ghost var posts: nat        // POST requests sent
    ghost var duplicated: bool  // two live keys once carried the same name after a POST
    ghost var withdrawn: bool   // the handler once revoked a key whose file was linked already

    constructor (server: map<KeyId, RemoteKey>, issued: nat)
      ensures Now() == State(None, None, server, issued) && events == [] && !duplicated && !withdrawn
    {
      metadata, keyFile, this.server, this.issued, events := None, None, server, issued, [];
      posts, duplicated, withdrawn := 0, false, false;
    }

    function Now(): State
      reads this
    {
      State(metadata, keyFile, server, issued)
    }

    method Next() returns (e: Event)
      modifies this`events
      ensures old(events) == [] ==> events == [] && e == Pass
      ensures old(events) != [] ==> e == old(events)[0] && events == old(events)[1..]
      ensures old(LateError !in events) ==> LateError !in events && e != LateError
    {
      e := Pass;
      if events != [] {
        e := events[0];
        events := events[1..];
      }
    }

    // ---- requests

    /** The ids of the live keys that carry `name`. */
    method List(name: string) returns (r: Outcome<set<KeyId>>)
      modifies this`events
      ensures old(events) == [] ==> events == [] && r.Done?
      ensures old(LateError !in events) ==> LateError !in events
      ensures old(events != [] && events[0].Pass?) ==> r.Done? && events == old(events)[1..]
      ensures r.Done? ==> r.value == Named(server, name)
    {
      var e := Next();
      if e.KillBefore? || e.KillAfter? {
        return Killed;
      }
      return if e.Pass? then Done(Named(server, name)) else Raised(Unreachable);
    }

    method Post(name: string) returns (r: Outcome<KeyId>)
      modifies this`events, this`server, this`issued, this`posts, this`duplicated
      ensures old(events) == [] ==> events == [] && r.Done?
      ensures old(LateError !in events) ==> LateError !in events
      ensures (server == old(server) && issued == old(issued))
              || (issued == old(issued) + 1 && old(issued) in server
                  && server[old(issued)].name == name && server[old(issued)].secret == old(issued)
                  && server == old(server)[old(issued) := server[old(issued)]])
      ensures r.Done? ==> r.value == old(issued) && issued == old(issued) + 1
      ensures old(Named(server, name)) == {} ==> duplicated == old(duplicated)
      ensures posts == old(posts) + 1
      ensures old(events != [] && events[0].Pass?) ==> r.Done? && events == old(events)[1..]
    {
      var e := Next();
      posts := posts + 1;
      if e.KillBefore? {
        return Killed;
      }
      if e.EarlyError? {
        return Raised(Unreachable);
      }
      var description: string := *;
      duplicated := duplicated || Named(server, name) != {};
      server, issued := server[issued := RemoteKey(name, issued, description)], issued + 1;
      if e.KillAfter? {
        return Killed;
      }
      return if e.Pass? then Done(issued - 1) else Raised(Unreachable);
    }

    method Delete(id: KeyId) returns (r: Outcome<bool>)
      modifies this`events, this`server
      ensures old(events) == [] ==> events == [] && r.Done?
      ensures old(LateError !in events) ==> LateError !in events
      ensures server == old(server) || server == old(server) - {id}
      ensures r.Done? ==> server == old(server) - {id}
    {
      var e := Next();
      if e.KillBefore? {
        return Killed;
      }
      if e.EarlyError? {
        return Raised(Unreachable);
      }
      var present := id in server;
      server := server - {id};
      if e.KillAfter? {
        return Killed;
      }
      return if e.Pass? then Done(present) else Raised(Unreachable);
    }

    /** Authenticate with the secret in the key file. */
    method Verify() returns (r: Outcome<()>)
      modifies this`events
      ensures old(events) == [] ==> events == [] && (r.Done? <==> keyFile.Some? && Authenticates(server, keyFile.value))
      ensures old(events) == [] ==> !r.Killed?
    {
      if keyFile.None? {
        return Raised(KeyFileInvalid);
      }
      var e := Next();
      if e.KillBefore? || e.KillAfter? {
        return Killed;
      }
      if !e.Pass? {
        return Raised(Unreachable);
      }
      return if Authenticates(server, keyFile.value) then Done(()) else Raised(AuthenticationFailed);
    }

    // ---- local writes

    method PublishMetadata(document: Metadata, replace: bool) returns (r: Outcome<()>)
      modifies this`events, this`metadata
      ensures old(events) == [] ==> events == [] && (r.Done? <==> old(metadata).None? || replace) && !r.Killed?
      ensures old(LateError !in events) ==> LateError !in events
      ensures metadata == old(metadata) || (metadata == Some(document) && (old(metadata).None? || replace))
      ensures r.Done? ==> metadata == Some(document)
      ensures old(events != [] && events[0].Pass? && (metadata.None? || replace)) ==>
                r.Done? && events == old(events)[1..]
    {
      if metadata.Some? && !replace {
        return Raised(MetadataFileExists);
      }
      var e := Next();
      if e.KillBefore? {
        return Killed;
      }
      if e.EarlyError? {
        return Raised(WriteFailed);
      }
      metadata := Some(document);
      if e.KillAfter? {
        return Killed;
      }
      return if e.LateError? then Raised(WriteFailed) else Done(());
    }

    method PublishKey(secret: Secret) returns (r: Outcome<()>)
      modifies this`events, this`keyFile
      ensures old(events) == [] ==> events == [] && (r.Done? <==> old(keyFile).None?) && !r.Killed?
      ensures old(LateError !in events) ==> LateError !in events && (r.Raised? ==> keyFile == old(keyFile))
      ensures r.Raised? && old(events != [] && !events[0].LateError?) ==> keyFile == old(keyFile)
      ensures keyFile == old(keyFile) || (old(keyFile).None? && keyFile == Some(secret))
      ensures r.Done? ==> keyFile == Some(secret)
      // the file was published, and the error came after that
      ensures old(events != [] && events[0].LateError? && keyFile.None?) ==>
                r.Raised? && keyFile == Some(secret) && events == old(events)[1..]
    {
      var e := Next();
      if e.KillBefore? {
        return Killed;
      }
      if e.EarlyError? {
        return Raised(WriteFailed);
      }
      if keyFile.Some? {
        return Raised(KeyOutputExists);
      }
      keyFile := Some(secret);
      if e.KillAfter? {
        return Killed;
      }
      return if e.LateError? then Raised(WriteFailed) else Done(());
    }

    method DeleteKeyFile() returns (r: Outcome<bool>)
      modifies this`events, this`keyFile
      ensures old(events) == [] ==> events == [] && r.Done?
      ensures keyFile == old(keyFile) || keyFile.None?
      ensures r.Done? ==> keyFile.None?
    {
      if keyFile.None? {
        return Done(false);
      }
      var e := Next();
      if e.KillBefore? {
        return Killed;
      }
      if e.EarlyError? {
        return Raised(WriteFailed);
      }
      keyFile := None;
      if e.KillAfter? {
        return Killed;
      }
      return if e.LateError? then Raised(WriteFailed) else Done(true);
    }

    // ---- create

    /**
     * A key that was just issued: publish its secret and complete the journal. A key whose file was not published is
     * revoked.
     */
    method PublishIssued(intent: Intent, id: KeyId, ghost start: State) returns (r: Outcome<KeyResult>)
      modifies this`events, this`server, this`keyFile, this`metadata, this`withdrawn
      ensures old(metadata.Some?) ==> metadata.Some?
      ensures (old(withdrawn) ==> withdrawn) && (withdrawn && !old(withdrawn) ==> LateError in old(events))
      ensures old(events) == [] ==> events == []
      ensures old(Issued(intent, start, Now())) && id == start.issued ==>
                && Legal(intent.request, Now()) && Advances(old(metadata), metadata)
                && (r.Done? ==> Complete(Now()) && r.value == Created(metadata.value.keyId))
                && (old(events) == [] ==> r.Done?)
                && (CanCreate(Now()) <==> !Stranded(Now())) && (old(!withdrawn) ==> (withdrawn <==> Stranded(Now())))
                && (old(events) == [LateError] ==> r.Raised? && Stranded(Now()))
    {
      ghost var ready := Issued(intent, start, Now()) && id == start.issued;
      var secret, description := id, if id in server then server[id].description else "";
      ghost var absent := keyFile.None?;
      var published := PublishKey(secret);
      if ready { IssuedLegal(intent, start, Now()); }
      if !published.Done? {
        if published.Raised? {
          var unwound := Delete(id);
          withdrawn := withdrawn || (absent && keyFile.Some? && id !in server);
          if ready { UnwoundLegal(intent, start, Now()); }
          if unwound.Killed? {
            return Killed;
          }
        }
        return published.PropagateFailure();
      }
      var _ :- PublishMetadata(Active(intent, id, description), true);
      return Done(Created(id));
    }

    /** From a fresh intent: check the name once more, ask for the key and publish it. */
    method IssueKey(intent: Intent) returns (r: Outcome<KeyResult>)
      modifies this
      ensures old(metadata.Some?) ==> metadata.Some?
      ensures old(events) == [] ==> events == []
      ensures posts <= old(posts) + 1
      ensures (old(withdrawn) ==> withdrawn) && (withdrawn && !old(withdrawn) ==> LateError in old(events))
      ensures old(Legal(intent.request, Now()) && metadata == Some(Creating(intent)) && keyFile.None?
                  && Named(server, intent.RemoteName()) == {}) ==>
                && Legal(intent.request, Now())
                && Advances(old(metadata), metadata) && duplicated == old(duplicated)
                && (r.Done? ==> Complete(Now()) && r.value == Created(metadata.value.keyId))
                && (old(events) == [] ==> r.Done?)
                && (CanCreate(Now()) <==> !Stranded(Now())) && (old(!withdrawn) ==> (withdrawn <==> Stranded(Now())))
                && (old(events) == [Pass, Pass, LateError] ==> r.Raised? && Stranded(Now()))
    {
      ghost var ready := Legal(intent.request, Now()) && metadata == Some(Creating(intent)) && keyFile.None?
                         && Named(server, intent.RemoteName()) == {};
      ghost var start := Now();
      var existing :- List(intent.RemoteName());
      if existing != {} {
        return Raised(RemoteNameConflict);
      }
      var posted := Post(intent.RemoteName());
      if ready { IssuedLegal(intent, start, Now()); }
      var id :- posted;
      r := PublishIssued(intent, id, start);
    }

    /** Check a journal against the request, and the remote keys of its name. */
    method Reconsider(request: Request, document: Metadata) returns (r: Outcome<set<KeyId>>)
      modifies this`events
      ensures old(events) == [] ==> events == []
      ensures old(LateError !in events) ==> LateError !in events
      ensures r.Done? ==> r.value == Named(server, document.intent.RemoteName()) && document.intent.request == request
                          && (r.value != {} ==> exists id :: id in r.value && r.value == {id})
      ensures Legal(request, Now()) && metadata == Some(document) && old(events) == [] ==> r.Done?
    {
      if document.intent.request != request {
        return Raised(MetadataMismatch);
      }
      var remote :- List(document.intent.RemoteName());
      if Legal(request, Now()) && metadata == Some(document) { AtMostOne(request, Now()); }
      if |remote| > 1 {
        return Raised(RemoteNameConflict);
      }
      if remote != {} {
        var id :| id in remote;
        assert |remote - {id}| == 0;
        assert remote == {id};
      }
      return Done(remote);
    }

    /** The journal is complete: only look. */
    method Confirm(document: Metadata, remote: set<KeyId>) returns (r: Outcome<KeyResult>)
      requires !document.Creating?
      modifies this`events
      ensures old(events) == [] ==> events == []
      ensures r.Done? ==> r == Done(Existing(document.keyId)) && document.Active? && remote == {document.keyId}
      ensures (old(events) == [] && document.Active? && remote == {document.keyId} && keyFile.Some?
               && Authenticates(server, keyFile.value)) ==> r.Done?
    {
      if !document.Active? {
        return Raised(MetadataRevoked);
      }
      if remote != {document.keyId} {
        return Raised(MetadataRemoteMismatch);
      }
      var _ :- Verify();
      return Done(Existing(document.keyId));
    }

    /** The key file was published before a crash: complete the journal. */
    method RecoverKey(request: Request, intent: Intent, remote: set<KeyId>) returns (r: Outcome<KeyResult>)
      requires remote == {} || exists id :: id in remote && remote == {id}
      requires remote <= server.Keys
      modifies this`events, this`metadata
      ensures old(events) == [] ==> events == []
      ensures old(Legal(request, Now())) && old(metadata) == Some(Creating(intent)) && keyFile.Some?
              && remote == Named(server, intent.RemoteName()) ==>
                && Legal(request, Now()) && Advances(old(metadata), metadata)
                && CanCreate(Now()) == CanCreate(old(Now()))
                && (r.Done? ==> Complete(Now()) && r.value == Recovered(metadata.value.keyId) && remote != {})
                && (old(events) == [] && remote != {} ==> r.Done?)
                && (remote == {} ==> r.Raised? && Now() == old(Now()))
    {
      if remote == {} {
        return Raised(RecoveryRemoteMissing);
      }
      var id :| id in remote;
      assert remote == {id};
      var _ :- Verify();
      var _ :- PublishMetadata(Active(intent, id, server[id].description), true);
      return Done(Recovered(id));
    }

    /** The raw key can only come from a POST: drop an orphan before asking again. */
    method DropOrphan(request: Request, intent: Intent, remote: set<KeyId>) returns (r: Outcome<()>)
      requires remote == {} || exists id :: id in remote && remote == {id}
      modifies this`events, this`server
      ensures old(events) == [] ==> events == [] && r.Done?
      ensures old(LateError !in events) ==> LateError !in events
      ensures old(Legal(request, Now())) && metadata == Some(Creating(intent)) && keyFile.None?
              && remote == Named(old(server), intent.RemoteName()) ==>
                Legal(request, Now()) && (r.Done? ==> Named(server, intent.RemoteName()) == {})
    {
      if remote != {} {
        var id :| id in remote;
        assert remote == {id};
        ghost var before := server;
        var deleted := Delete(id);
        assert forall k :: k in Named(server, intent.RemoteName()) ==> k in Named(before, intent.RemoteName());
        var _ :- deleted;
      }
      return Done(());
    }

    method Create(request: Request, operation: string) returns (r: Outcome<KeyResult>)
      modifies this
      ensures old(events) == [] ==> events == []
      ensures old(Legal(request, Now())
                  && (metadata.None? ==> Named(server, Intent(request, operation).RemoteName()) == {})) ==>
                && Legal(request, Now()) && Advances(old(metadata), metadata) && duplicated == old(duplicated)
                && (r.Done? ==> Complete(Now()) && r.value.keyId == metadata.value.keyId && old(CanCreate(Now())))
                && (old(events) == [] && old(CanCreate(Now())) ==> r.Done?)
                // a rerun can only fail for good once a key was withdrawn
                && (old(CanCreate(Now()) <==> !withdrawn) ==> (CanCreate(Now()) <==> !withdrawn))
                && (old(metadata.Some? && metadata.value.Active?) ==> Now() == old(Now()) && posts == old(posts))
                && (r.Done? ==> r.value.Existing? == old(metadata.Some? && metadata.value.Active?))
                && (old(Stranded(Now())) ==> !r.Done? && Now() == old(Now()))
                && (old(metadata.None? && events == [Pass, Pass, Pass, LateError]) ==> r.Raised? && Stranded(Now()))
      ensures posts <= old(posts) + 1
      ensures (old(withdrawn) ==> withdrawn) && (withdrawn && !old(withdrawn) ==> LateError in old(events))
      ensures metadata.None? ==> server == old(server)
    {
      var outputExists, metadataExists := keyFile.Some?, metadata.Some?;
      if outputExists && !metadataExists {
        return Raised(StateIncomplete);
      }
      var intent;
      if metadataExists {
        var document := metadata.value;
        intent := document.intent;
        var remote :- Reconsider(request, document);
        if !document.Creating? {
          r := Confirm(document, remote);
          return;
        }
        if outputExists {
          r := RecoverKey(request, intent, remote);
          return;
        }
        var _ :- DropOrphan(request, intent, remote);
      } else {
        intent := Intent(request, operation);
        var _ :- PublishMetadata(Creating(intent), false);
      }
      r := IssueKey(intent);
    }

    // ---- revoke

    /** Revoke the journaled key, record that, and only then delete its file. */
    method RevokeJournaled(request: Request, keyId: KeyId, deleteKeyFile: bool) returns (r: Outcome<bool>)
      modifies this`events, this`server, this`metadata, this`keyFile
      ensures old(events) == [] ==> events == []
      ensures old(Legal(request, Now())) ==>
                && Legal(request, Now()) && Advances(old(metadata), metadata)
                // the key file goes only after revoked is recorded and the remote key is gone
                && (keyFile != old(keyFile) ==>
                      keyFile.None? && metadata.Some? && metadata.value.Revoked? && metadata.value.keyId !in server)
                && (r.Done? ==>
                      metadata.Some? && metadata.value.Revoked? && metadata.value.keyId == keyId && keyId !in server
                                && (deleteKeyFile ==> keyFile.None?))
                && (old(events) == [] ==>
                      (r.Done? <==> old(metadata.Some? && !metadata.value.Creating? && metadata.value.keyId == keyId))
                      && (!r.Done? ==> Now() == old(Now())))
      ensures server == old(server) || server == old(server) - {keyId}
      ensures metadata.None? ==> old(metadata).None?
    {
      if metadata.None? || metadata.value.Creating? {
        return Raised(MetadataFileInvalid);
      }
      var document := metadata.value;
      if document.intent.request.team != request.team || document.keyId != keyId {
        return Raised(MetadataMismatch);
      }
      var revoked := false;
      if !document.Revoked? {
        revoked :- Delete(keyId);
        var _ :- PublishMetadata(Revoked(document.intent, keyId, document.description), true);
      }
      if deleteKeyFile {
        var _ :- DeleteKeyFile();
      }
      return Done(revoked);
    }

    /** Revoke one key; without its metadata file the local state is not even looked at. */
    method Revoke(request: Request, keyId: KeyId, confirmed: KeyId, withMetadata: bool, deleteKeyFile: bool)
      returns (r: Outcome<bool>)
      modifies this`events, this`server, this`metadata, this`keyFile
      ensures old(events) == [] ==> events == []
      ensures old(Legal(request, Now())) ==>
                && Legal(request, Now()) && Advances(old(metadata), metadata)
                && (keyFile != old(keyFile) ==>
                      keyFile.None? && metadata.Some? && metadata.value.Revoked? && metadata.value.keyId !in server)
                && (r.Done? && withMetadata ==>
                      metadata.Some? && metadata.value.Revoked? && metadata.value.keyId == keyId
                                                && (deleteKeyFile ==> keyFile.None?))
                && (old(events) == [] ==>
                      (r.Done? <==> confirmed == keyId && (deleteKeyFile ==> withMetadata)
                                    && (withMetadata ==>
                                          old(metadata.Some? && !metadata.value.Creating?
                                              && metadata.value.keyId == keyId)))
                      && (!r.Done? ==> Now() == old(Now())))
                && (r.Done? ==> keyId !in server)
      ensures !withMetadata ==> metadata == old(metadata) && keyFile == old(keyFile)
      ensures server == old(server) || server == old(server) - {keyId}
      ensures metadata.None? ==> old(metadata).None?
    {
      hide Legal;
      if keyId != confirmed {
        return Raised(ConfirmationMismatch);
      }
      if deleteKeyFile && !withMetadata {
        return Raised(MetadataRequired);
      }
      if withMetadata {
        r := RevokeJournaled(request, keyId, deleteKeyFile);
      } else {
        if Legal(request, Now()) { DeletedLegal(request, Now(), keyId); }
        r := Delete(keyId);
      }
    }
  }

  /** A legal state without one of its live keys. */
  lemma DeletedLegal(r: Request, s: State, id: KeyId)
    requires Legal(r, s)
    ensures Legal(r, s.(server := s.server - {id}))
  {
    var t := s.(server := s.server - {id});
    assert forall name, k :: k in Named(t.server, name) <==> k in Named(s.server, name) && k != id;
    if s.metadata.Some? && !s.metadata.value.Creating? && s.metadata.value.Active? && s.metadata.value.keyId != id {
      assert Named(t.server, s.metadata.value.intent.RemoteName())
               == Named(s.server, s.metadata.value.intent.RemoteName()) - {id};
    }
    if s.metadata.Some? && s.metadata.value.Creating? && s.keyFile.Some? {
      var name := s.metadata.value.intent.RemoteName();
      if k :| k in s.server && Holds(s, name, k) {
        if k != id { assert Holds(t, name, k); } else { assert Named(t.server, name) == {}; }
      }
    }
  }

  lemma AtMostOne(r: Request, s: State)
    requires Legal(r, s) && s.metadata.Some?
    ensures |Named(s.server, s.metadata.value.intent.RemoteName())| <= 1
  {
    var ids := Named(s.server, s.metadata.value.intent.RemoteName());
    if ids != {} {
      var id :| id in ids;
      assert ids == {id};
    }
  }

  /** The server after a POST that may not have been applied. */
  predicate MaybeIssued(i: Intent, s: State, t: State) {
    || (t.server == s.server && t.issued == s.issued)
    || (t.issued == s.issued + 1 && s.issued in t.server && t.server[s.issued].name == i.RemoteName()
        && t.server[s.issued].secret == s.issued && t.server == s.server[s.issued := t.server[s.issued]])
  }

  /** A POST that was applied, and nothing else since. */
  predicate Issued(i: Intent, s: State, t: State) {
    Fresh(i, s) && MaybeIssued(i, s, t) && t.issued == s.issued + 1 && t.metadata == s.metadata && t.keyFile.None?
  }

  predicate Fresh(i: Intent, s: State) {
    && Legal(i.request, s) && s.metadata == Some(Creating(i)) && s.keyFile.None?
    && Named(s.server, i.RemoteName()) == {}
  }

  lemma IssuedLegal(i: Intent, s: State, t: State)
    requires Fresh(i, s) && MaybeIssued(i, s, t) && t.metadata == s.metadata
    requires t.keyFile.None? || (t.keyFile == Some(s.issued) && t.issued == s.issued + 1)
    ensures Legal(i.request, t) && !Stranded(t)
    ensures t.issued == s.issued + 1 ==> Named(t.server, i.RemoteName()) == {s.issued}
  {
    assert forall id :: id in Named(t.server, i.RemoteName()) ==>
             id == s.issued || id in Named(s.server, i.RemoteName());
    if t.issued == s.issued + 1 {
      assert s.issued in Named(t.server, i.RemoteName());
      assert Named(t.server, i.RemoteName()) == {s.issued};
    }
  }

  /** After the handler, whether or not its own request got through. */
  lemma UnwoundLegal(i: Intent, s: State, t: State)
    requires Fresh(i, s) && t.issued == s.issued + 1 && t.metadata == s.metadata
    requires MaybeIssued(i, s, t) || t.server == s.server
    requires t.keyFile.None? || t.keyFile == Some(s.issued)
    ensures Legal(i.request, t) && (t.keyFile.None? ==> !Stranded(t))
  {
    if MaybeIssued(i, s, t) {
      IssuedLegal(i, s, t);
    }
  }

  // ---- any number of runs

  datatype Run =
    | CreateRun(operation: string, events: seq<Event>)
    | RevokeRun(keyId: KeyId, confirmed: KeyId, withMetadata: bool, deleteKeyFile: bool, events: seq<Event>)

  predicate CreatesOnly(runs: seq<Run>) {
    forall run :: run in runs ==> run.CreateRun?
  }

  predicate NoLateErrors(runs: seq<Run>) {
    forall run :: run in runs ==> LateError !in run.events
  }

  /** Nothing was added. */
  predicate Within(server: map<KeyId, RemoteKey>, initial: map<KeyId, RemoteKey>) {
    forall id :: id in server ==> id in initial && server[id] == initial[id]
  }

  lemma WithinNamed(server: map<KeyId, RemoteKey>, initial: map<KeyId, RemoteKey>, name: string)
    requires Within(server, initial) && Named(initial, name) == {}
    ensures Named(server, name) == {}
  {
    forall id ensures id !in Named(server, name) {
      assert id in Named(server, name) ==> id in Named(initial, name);
    }
  }

  /** One request, the server it started from, and the runs made for it since. */
  class Lifecycle {
    const request: Request
    const initial: map<KeyId, RemoteKey>
    const manager: Manager
    ghost var runs: seq<Run>

    ghost predicate Valid()
      reads this, manager
    {
      && Legal(request, manager.Now()) && !manager.duplicated
      && (manager.metadata.None? ==> Within(manager.server, initial))
      && (CreatesOnly(runs) ==> (CanCreate(manager.Now()) <==> !manager.withdrawn))
      && (NoLateErrors(runs) ==> !manager.withdrawn)
    }

    /** The operation id a run may draw names no key of the initial server. */
    predicate Fresh(run: Run) {
      run.CreateRun? ==> Named(initial, Intent(request, run.operation).RemoteName()) == {}
    }

    constructor (request: Request, server: map<KeyId, RemoteKey>, issued: nat)
      requires ServerSane(server, issued)
      ensures Valid() && fresh(manager) && this.request == request && initial == server && runs == []
      ensures manager.Now() == State(None, None, server, issued)
    {
      this.request, initial, runs := request, server, [];
      manager := new Manager(server, issued);
    }

    /** One run, however it ends: the state stays legal, no name gets a second live key, the journal never goes back. */
    method Perform(run: Run)
      requires Valid() && Fresh(run)
      modifies this`runs, manager
      ensures Valid() && runs == old(runs) + [run] && Advances(old(manager.metadata), manager.metadata)
    {
      hide Legal, CanCreate, Advances;
      ExtendsRuns(runs, run);
      if manager.metadata.None? && run.CreateRun? {
        WithinNamed(manager.server, initial, Intent(request, run.operation).RemoteName());
      }
      manager.events := run.events;
      runs := runs + [run];
      match run {
        case CreateRun(operation, _) => var _ := manager.Create(request, operation);
        case RevokeRun(keyId, confirmed, withMetadata, deleteKeyFile, _) =>
          var _ := manager.Revoke(request, keyId, confirmed, withMetadata, deleteKeyFile);
      }
    }

    /**
     * After any killed or failed `create` runs, one undisturbed run completes the key, and another sends no POST,
     * exactly if no handler revoked a key whose file was linked already. Every other error or kill is harmless.
     */
    method CreateConverges(operation: string) returns (r: Outcome<KeyResult>, again: Outcome<KeyResult>)
      requires Valid() && CreatesOnly(runs) && Fresh(CreateRun(operation, []))
      modifies this`runs, manager
      ensures Valid() && runs == old(runs) + [CreateRun(operation, []), CreateRun(operation, [])]
      ensures r.Done? <==> old(!manager.withdrawn)
      ensures r.Done? ==> Complete(manager.Now()) && r.value.keyId == manager.metadata.value.keyId
      ensures r.Done? ==> again == Done(Existing(r.value.keyId)) && manager.posts <= old(manager.posts) + 1
    {
      hide Legal, CanCreate;
      if manager.metadata.None? { WithinNamed(manager.server, initial, Intent(request, operation).RemoteName()); }
      manager.events := [];
      r := manager.Create(request, operation);
      if r.Done? { CompleteCanCreate(manager.Now()); }
      again := manager.Create(request, operation);
      runs := runs + [CreateRun(operation, []), CreateRun(operation, [])];
      assert CreatesOnly(runs);
      assert NoLateErrors(runs) ==> old(NoLateErrors(runs)) by {
        assert forall run :: run in old(runs) ==> run in runs;
      }
    }

    /** After any runs, one undisturbed `revoke` of the journaled key leaves no key of its name and no key file. */
    method RevokeConverges(keyId: KeyId) returns (r: Outcome<bool>)
      requires Valid()
      modifies this`runs, manager
      ensures Valid() && runs == old(runs) + [RevokeRun(keyId, keyId, true, true, [])]
      ensures r.Done? <==>
                old(manager.metadata.Some? && !manager.metadata.value.Creating?
                    && manager.metadata.value.keyId == keyId)
      ensures r.Done? ==> manager.metadata.Some? && manager.metadata.value.Revoked? && manager.keyFile.None?
                          && Named(manager.server, manager.metadata.value.intent.RemoteName()) == {}
    {
      hide CanCreate, Advances;
      manager.events := [];
      r := manager.Revoke(request, keyId, keyId, true, true);
      runs := runs + [RevokeRun(keyId, keyId, true, true, [])];
      assert RevokeRun(keyId, keyId, true, true, []) in runs;
    }
  }

  lemma ExtendsRuns(runs: seq<Run>, run: Run)
    ensures CreatesOnly(runs + [run]) ==> CreatesOnly(runs) && run.CreateRun?
    ensures NoLateErrors(runs + [run]) ==> NoLateErrors(runs) && LateError !in run.events
  {
    if CreatesOnly(runs + [run]) || NoLateErrors(runs + [run]) {
      assert run in runs + [run] && forall x :: x in runs ==> x in runs + [run];
    }
  }

  lemma CompleteCanCreate(s: State)
    requires Complete(s)
    ensures CanCreate(s) && s.metadata.Some? && s.metadata.value.Active?
  {
  }

  /** Over every sequence of runs. */
  method Operate(life: Lifecycle, runs: seq<Run>)
    requires life.Valid() && forall run :: run in runs ==> life.Fresh(run)
    modifies life`runs, life.manager
    ensures life.Valid() && life.runs == old(life.runs) + runs
  {
    assert life.runs + runs[..0] == life.runs;
    for i := 0 to |runs|
      invariant life.Valid() && life.runs == old(life.runs) + runs[..i]
    {
      assert runs[..i + 1] == runs[..i] + [runs[i]];
      life.Perform(runs[i]);
    }
    assert runs[..|runs|] == runs;
  }

  /**
   * A first `create` in which the publication of the key file reports an error after it linked the file: the handler
   * revokes the key, the state is stranded, and a rerun that nothing disturbs refuses and changes nothing.
   */
  method LateErrorStrands(request: Request, server: map<KeyId, RemoteKey>, issued: nat, operation: string)
    returns (life: Lifecycle, r: Outcome<KeyResult>, again: Outcome<KeyResult>)
    requires ServerSane(server, issued) && Named(server, Intent(request, operation).RemoteName()) == {}
    ensures r.Raised? && !again.Done?
    ensures Legal(request, life.manager.Now()) && Stranded(life.manager.Now()) && !CanCreate(life.manager.Now())
  {
    hide Legal, Complete;
    life := new Lifecycle(request, server, issued);
    // metadata, list and POST succeed; the link does too, but reports an error
    life.manager.events := [Pass, Pass, Pass, LateError];
    r := life.manager.Create(request, operation);
    life.manager.events := [];
    again := life.manager.Create(request, operation);
  }
}
