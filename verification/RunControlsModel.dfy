/** The window's model of Run controls as an object: a table replaced entry by entry, refresh versions, the
    recovery storage it writes, and the proof that each method does what RunCommands.dfy says. */
module RunControlsModel {
  import opened Sequences
  import Commands = RunCommands
  import opened RunCommands
  import opened RunCommandTheorems

  class RunControlsModel {
    var entries: map<Target, Entry>
    var refreshVersions: map<Target, nat>
    var recoveryError: bool
    var awaiting: map<Target, Flight>
    var storage: map<Target, Saved>

    /** The object in the world of `s`. */
    ghost function Within(s: State): State
      reads this
    {
      s.(window := Window(entries, refreshVersions, recoveryError, awaiting), storage := storage)
    }

    /** A new window over what an earlier one stored; `readable` unless reading it fails. */
    constructor (stored: map<Target, Saved>, readable: bool, ghost s: State)
      requires Good(s) && s.storage == stored
      ensures Good(Within(s)) && Within(s) == Reload(s, readable)
    {
      ReloadKeeps(s, readable);
      storage := stored;
      entries := if readable then map t | t in stored :: Restored(stored[t]) else map[];
      refreshVersions, awaiting := map[], map[];
      recoveryError := !readable;
    }

    /** Press the button of a control; what is returned is sent, as send `id`, after storage holds it. */
    method Submit(target: Target, principal: string, view: View, key: string, id: nat, saves: bool, ghost s: State)
      returns (send: Option<Request>)
      requires Good(s) && Within(s) == s && id == s.nextSend && Enabled(s, Press(target, principal, view, key, saves))
      modifies this
      ensures var t := Commands.Submit(s, target, principal, view, key, saves);
        Good(t) && Within(t) == t && (send.Some? <==> t.nextSend == s.nextSend + 1)
      ensures send.Some? ==> target in storage && storage[target] == Saved(send.value, principal, None)
    {
      hide Good, Commands.Send, Commands.Set;
      SubmitKeeps(s, target, principal, view, key, saves);
      var entry := if target in entries then entries[target] else EmptyEntry;
      send := None;
      if recoveryError || entry.status == Submitting {
        return;
      }
      if entry.request.Some? && entry.principal != Some(principal) {
        var message := OriginalHumanOnly();
        SetCounts(s, target, entry.(error := Some(message)), saves);
        Set(target, entry.(error := Some(message)), saves, s);
        return;
      }
      var request;
      if entry.request.Some? {
        request := entry.request.value;
      } else {
        var objection := Objection(entry, target, principal, view);
        if objection.Some? {
          SetCounts(s, target, entry.(error := objection), saves);
          Set(target, entry.(error := objection), saves, s);
          return;
        }
        request := Request(key, target, view.revision, if view.input.Some? then view.input.value.disposition else 0);
      }
      ghost var base := if entry.request.Some? then s else s.(minted := s.minted[key := (request, principal)]);
      SendWritesFirst(base, target, entry, request, principal, saves);
      SendCounts(base, target, entry, request, principal, saves);
      send := Send(target, entry, request, principal, id, saves, base);
    }

    /** The awaited send settled with `reply`. */
    method Conclude(target: Target, request: Request, principal: string, reply: Reply, saves: bool, ghost s: State)
      returns (succeeded: bool)
      requires Good(s) && Within(s) == s && Hears(s, target, reply)
      requires var m := s.net[s.window.awaiting[target].send]; m.request == request && m.principal == principal
      modifies this
      ensures var t := Commands.Conclude(s, target, reply, saves); Good(t) && Within(t) == t
      ensures succeeded == (reply.Accepted? && Confirms(reply.receipt, request))
    {
      hide Good, Commands.Set;
      ConcludeKeeps(s, target, reply, saves);
      HeardIsHeld(s, target);
      var pending := awaiting[target].pending;
      awaiting := awaiting - {target};
      succeeded := reply.Accepted? && Confirms(reply.receipt, request);
      if succeeded {
        refreshVersions := refreshVersions[target :=
          (if target in refreshVersions then refreshVersions[target] else 0) + 1];
      }
      Set(target, Concluded(pending, request, principal, reply), saves, Within(s));
    }

    method BeginRefresh(target: Target, saves: bool, ghost s: State) returns (version: nat)
      requires Good(s) && Within(s) == s
      modifies this
      ensures var t := Commands.BeginRefresh(s, target, saves); Good(t) && Within(t) == t
      ensures version == VersionOf(s.window, target) + 1
    {
      hide Good, Commands.Set;
      TakeKeeps(s, StartRefresh(target, saves));
      version := (if target in refreshVersions then refreshVersions[target] else 0) + 1;
      refreshVersions := refreshVersions[target := version];
      var entry := if target in entries then entries[target] else EmptyEntry;
      Set(target, entry.(projection := Refreshing), saves, Within(s));
    }

    method EndRefresh(target: Target, version: nat, succeeded: bool, saves: bool, ghost s: State)
      requires Good(s) && Within(s) == s
      modifies this
      ensures var t := Commands.EndRefresh(s, target, version, succeeded, saves); Good(t) && Within(t) == t
    {
      hide Good, Commands.Set;
      TakeKeeps(s, FinishRefresh(target, version, succeeded, saves));
      if (if target in refreshVersions then refreshVersions[target] else 0) != version || target !in entries {
        return;
      }
      var entry := entries[target];
      Set(target, if succeeded then entry.(projection := Settled, reviewRequired := false)
                  else entry.(projection := Failed), saves, s);
    }

    // ---- private steps -------------------------------------------------------------------------

    /** Replace an entry, then write the table unless writing has failed before. */
    method Set(target: Target, entry: Entry, saves: bool, ghost s: State)
      requires Within(s) == s
      modifies this`entries, this`storage, this`recoveryError
      ensures var t := Commands.Set(s, target, entry, saves); Within(t) == t
    {
      entries := entries[target := entry];
      if recoveryError {
        return;
      }
      if saves {
        storage := map t | t in entries && Kept(entries[t]) :: SavedOf(entries[t]);
      } else {
        recoveryError := true;
      }
    }

    method Send(
      target: Target, entry: Entry, request: Request, principal: string, id: nat, saves: bool, ghost s: State)
      returns (send: Option<Request>)
      requires Within(s) == s && !recoveryError && id == s.nextSend
      modifies this
      ensures var t := Commands.Send(s, target, entry, request, principal, saves); Within(t) == t
      ensures send == if saves then Some(request) else None
    {
      hide Persisted;
      var pending := Pending(entry, request, principal);
      Set(target, pending, saves, s);
      ghost var t := Commands.Set(s, target, pending, saves);
      if recoveryError {
        Set(target, entry, saves, t);
        return None;
      }
      awaiting := awaiting[target := Flight(id, pending)];
      return Some(request);
    }
  }

  lemma SetCounts(s: State, t: Target, e: Entry, saves: bool)
    ensures Commands.Set(s, t, e, saves).nextSend == s.nextSend
  {
    hide Persisted;
  }

  lemma SendCounts(s: State, t: Target, e: Entry, r: Request, principal: string, saves: bool)
    requires !s.window.blocked
    ensures Commands.Send(s, t, e, r, principal, saves).nextSend == s.nextSend + if saves then 1 else 0
  {
    hide Persisted;
  }
}
