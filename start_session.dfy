/** The `start-session` Edge Function: deactivate the caller's configurations,
    insert a new active one, insert a session bound to it. Each database step
    is given its outcome by the caller; the function does not roll back. */
module StartSession {
  import opened Wrappers
  import opened Tables

  /** The JSON body the client posts. */
  datatype StartRequest = StartRequest(provider: string, apiKey: string, modelA: string, modelB: string)

  /** What an `insert(...).select().single()` returned: the new row's id, or the error's message. */
  datatype InsertOutcome = Inserted(id: string) | InsertError(message: string)

  datatype StartBody = PlainText(text: string) | ErrorJson(error: string) | Started(session: SessionRow, config: Configuration)

  datatype StartResponse = StartResponse(status: nat, body: StartBody)

  /** `update({ is_active: false }).eq('user_id', user)` on the configuration table. */
  function Deactivated(configs: seq<Configuration>, user: string): (r: seq<Configuration>)
    ensures |r| == |configs|
    ensures forall i :: 0 <= i < |configs| ==>
      r[i].id == configs[i].id && r[i].userId == configs[i].userId && r[i].provider == configs[i].provider &&
      r[i].apiKey == configs[i].apiKey && r[i].modelA == configs[i].modelA && r[i].modelB == configs[i].modelB &&
      (configs[i].userId == user ==> !r[i].isActive) &&
      (configs[i].userId != user ==> r[i] == configs[i])
  {
    if |configs| == 0 then []
    else
      var c := configs[0];
      [if c.userId == user then c.(isActive := false) else c] + Deactivated(configs[1..], user)
  }

  /** After the update the caller has no active configuration left. */
  lemma {:induction false} DeactivatedClearsUser(configs: seq<Configuration>, user: string)
    ensures ActiveRows(Deactivated(configs, user), user) == []
  {
    if |configs| > 0 {
      DeactivatedClearsUser(configs[1..], user);
      assert Deactivated(configs, user)[1..] == Deactivated(configs[1..], user);
    }
  }

  /** The update does not touch other users' rows, active or not. */
  lemma {:induction false} DeactivatedKeepsOthers(configs: seq<Configuration>, user: string, other: string)
    requires other != user
    ensures RowsOf(Deactivated(configs, user), other) == RowsOf(configs, other)
    ensures ActiveRows(Deactivated(configs, user), other) == ActiveRows(configs, other)
  {
    if |configs| > 0 {
      DeactivatedKeepsOthers(configs[1..], user, other);
      assert Deactivated(configs, user)[1..] == Deactivated(configs[1..], user);
    }
  }

  /** The row the configuration insert writes. */
  function NewConfiguration(id: string, user: string, req: StartRequest): (c: Configuration)
    ensures c.isActive && c.userId == user && c.id == id
    ensures c.provider == req.provider && c.apiKey == req.apiKey && c.modelA == req.modelA && c.modelB == req.modelB
  {
    Configuration(id, user, req.provider, req.apiKey, req.modelA, req.modelB, true)
  }

  /** Deactivate-then-insert leaves the caller with exactly the new configuration active,
      and keeps every user at no more than one active configuration. */
  lemma StartKeepsSingleActive(configs: seq<Configuration>, user: string, x: Configuration)
    requires AtMostOneActive(configs)
    requires x.userId == user && x.isActive
    ensures ActiveRows(Deactivated(configs, user) + [x], user) == [x]
    ensures AtMostOneActive(Deactivated(configs, user) + [x])
  {
    var after := Deactivated(configs, user) + [x];
    DeactivatedClearsUser(configs, user);
    ActiveRowsAppend(Deactivated(configs, user), x, user);
    forall other
      ensures |ActiveRows(after, other)| <= 1
    {
      if other != user {
        ActiveRowsAppend(Deactivated(configs, user), x, other);
        DeactivatedKeepsOthers(configs, user, other);
        assert |ActiveRows(configs, other)| <= 1;
      }
    }
  }

  /** Once a session has started, `ai-chat`'s lookup finds the configuration it created. */
  lemma ChatFindsNewConfiguration(configs: seq<Configuration>, user: string, x: Configuration)
    requires x.userId == user && x.isActive
    ensures LookupActive(Deactivated(configs, user) + [x], user) == Some(x)
  {
    DeactivatedClearsUser(configs, user);
    ActiveRowsAppend(Deactivated(configs, user), x, user);
  }

  /** The update's result is not checked: if it silently fails while the caller
      already has an active row, the insert adds a second one and `ai-chat` then
      finds no single active configuration. */
  lemma FailedDeactivationBreaksLookup(configs: seq<Configuration>, x: Configuration)
    requires |ActiveRows(configs, x.userId)| >= 1 && x.isActive
    ensures |ActiveRows(configs + [x], x.userId)| == |ActiveRows(configs, x.userId)| + 1 >= 2
    ensures LookupActive(configs + [x], x.userId).None?
  {
    ActiveRowsAppend(configs, x, x.userId);
  }

  /** One POST to `start-session`. `user` is what `auth.getUser()` found,
      `deactivateSucceeds` whether the unchecked update took effect, `now` the
      locale date string the title is built from. */
  method HandleStartSession(db: Database, user: Option<string>, req: StartRequest, deactivateSucceeds: bool,
                            configInsert: InsertOutcome, sessionInsert: InsertOutcome, now: string)
    returns (resp: StartResponse)
    modifies db
    ensures db.chatMessages == old(db.chatMessages)
    ensures user.None? ==>
      resp == StartResponse(401, PlainText("Unauthorized")) &&
      db.configurations == old(db.configurations) && db.sessions == old(db.sessions)
    ensures user.Some? ==>
      var updated := if deactivateSucceeds then Deactivated(old(db.configurations), user.value) else old(db.configurations);
      match configInsert
      case InsertError(m) =>
        resp == StartResponse(400, ErrorJson(m)) && db.configurations == updated && db.sessions == old(db.sessions)
      case Inserted(cid) =>
        var config := NewConfiguration(cid, user.value, req);
        db.configurations == updated + [config] &&
        match sessionInsert
        case InsertError(m) =>
          resp == StartResponse(400, ErrorJson(m)) && db.sessions == old(db.sessions)
        case Inserted(sid) =>
          var session := SessionRow(sid, user.value, cid, "Session " + now);
          db.sessions == old(db.sessions) + [session] && resp == StartResponse(200, Started(session, config))
    ensures user.Some? ==>
      forall other :: other != user.value ==> RowsOf(db.configurations, other) == RowsOf(old(db.configurations), other)
    ensures user.Some? && deactivateSucceeds && AtMostOneActive(old(db.configurations)) ==> AtMostOneActive(db.configurations)
    ensures user.Some? && deactivateSucceeds && configInsert.Inserted? ==>
      LookupActive(db.configurations, user.value) == Some(NewConfiguration(configInsert.id, user.value, req))
  {
    if user.None? {
      return StartResponse(401, PlainText("Unauthorized"));
    }
    var u := user.value;
    ghost var before := db.configurations;
    if deactivateSucceeds {
      db.configurations := Deactivated(db.configurations, u);
      forall other | other != u
        ensures RowsOf(db.configurations, other) == RowsOf(before, other)
      {
        DeactivatedKeepsOthers(before, u, other);
      }
      if AtMostOneActive(before) {
        forall other
          ensures |ActiveRows(db.configurations, other)| <= 1
        {
          if other == u {
            DeactivatedClearsUser(before, u);
          } else {
            DeactivatedKeepsOthers(before, u, other);
            assert |ActiveRows(before, other)| <= 1;
          }
        }
      }
    }
    if configInsert.InsertError? {
      return StartResponse(400, ErrorJson(configInsert.message));
    }
    var config := NewConfiguration(configInsert.id, u, req);
    ghost var updated := db.configurations;
    db.configurations := db.configurations + [config];
    forall other | other != u
      ensures RowsOf(db.configurations, other) == RowsOf(before, other)
    {
      RowsOfAppend(updated, config, other);
    }
    if deactivateSucceeds {
      ChatFindsNewConfiguration(before, u, config);
      if AtMostOneActive(before) {
        StartKeepsSingleActive(before, u, config);
      }
    }
    if sessionInsert.InsertError? {
      return StartResponse(400, ErrorJson(sessionInsert.message));
    }
    var session := SessionRow(sessionInsert.id, user.value, config.id, "Session " + now);
    db.sessions := db.sessions + [session];
    resp := StartResponse(200, Started(session, config));
  }
}
