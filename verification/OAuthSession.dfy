/** Credential sessions with a quarantine latch (connector-support/oauthcred/session.go). The store
    may fail at any call, with or without having written; a failed save does not release the latch.
    Each call runs under the session's mutex. */
module OAuthSession {
  import opened Options
  import opened Basics

  // ----- Which refresh errors are terminal -----

  /** `lower` is the lower-cased error text; the codes are those the error chain carries. */
  datatype RefreshError = RefreshError(sentinel: bool, httpStatus: Option<int>, status: Option<int>, lower: string)

  predicate TextAt(s: string, t: string, i: int) {
    0 <= i && i + |t| <= |s| && s[i..i + |t|] == t
  }

  predicate ContainsText(s: string, t: string) {
    exists i :: 0 <= i <= |s| && TextAt(s, t, i)
  }

  const TerminalTexts := [
    "invalid_grant", "invalid_client", "unauthorized_client", "unsupported_grant_type",
    "http 401", "status 401", "http 403", "status 403", "http 400", "status 400"]

  function Code(err: RefreshError): int {
    if err.httpStatus.Some? then err.httpStatus.value else err.status.GetOr(0)
  }

  predicate IsTerminalError(err: RefreshError) {
    || err.sentinel
    || (400 <= Code(err) <= 499 && Code(err) != 408 && Code(err) != 429)
    || exists k :: 0 <= k < |TerminalTexts| && ContainsText(err.lower, TerminalTexts[k])
  }

  // ----- Records, calls and what they do -----

  /** `expiry` is None for the zero time. */
  datatype TokenRecord = TokenRecord(access: string, refresh: string, expiry: Option<int>, quarantined: bool)

  datatype LoadResult = Loads | LoadFails
  datatype SaveResult = Saves | SaveFails(written: bool)
  datatype DeleteResult = Deletes | DeleteFails(removed: bool)
  datatype RefreshResult =
    | Refreshes(access: string, refresh: string, expiry: Option<int>)
    | RefreshFails(err: RefreshError)

  /** What the outside does during one call of Token. */
  datatype World = World(load: LoadResult, now: int, refresher: Option<RefreshResult>, save: SaveResult)

  datatype CallOp = TokenCall(w: World) | SaveCall(rec: TokenRecord, how: SaveResult) | DeleteCall(done: DeleteResult)

  /** What the properties speak of, in order of occurrence. */
  datatype Event =
    | RefreshCalled
    | TerminalOutcome
    | Persisted(record: TokenRecord)
    | TokenReturned(access: string)

  /** The latch of the session and the record in its store. */
  datatype Mode = Mode(quarantined: bool, stored: Option<TokenRecord>)

  datatype Outcome = Outcome(mode: Mode, events: seq<Event>, token: Option<string>)

  predicate Blank(s: string) {
    forall k :: 0 <= k < |s| ==> IsSpace(s[k])
  }

  const DefaultSkew := 60

  /** The cached access token outlives the skew. */
  predicate FreshEnough(rec: TokenRecord, now: int, skew: int) {
    rec.access != "" && rec.expiry.Some? && rec.expiry.value - now > (if skew <= 0 then DefaultSkew else skew)
  }

  /** The record in the store after a save. */
  function Saved(stored: Option<TokenRecord>, rec: TokenRecord, how: SaveResult): Option<TokenRecord> {
    if how.Saves? || how.written then Some(rec) else stored
  }

  /** A refresh outcome that must not be repeated. */
  predicate Terminal(result: RefreshResult) {
    match result
    case RefreshFails(err) => IsTerminalError(err)
    case Refreshes(access, _, _) => Blank(access)
  }

  function Renewed(rec: TokenRecord, result: RefreshResult): TokenRecord
    requires result.Refreshes?
  {
    TokenRecord(result.access, if Blank(result.refresh) then rec.refresh else result.refresh, result.expiry, false)
  }

  /** What a call of the refresher leads to. */
  function AfterRefresh(m: Mode, rec: TokenRecord, result: RefreshResult, how: SaveResult): Outcome {
    if Terminal(result) then
      Outcome(Mode(true, Saved(m.stored, rec.(quarantined := true), how)), [RefreshCalled, TerminalOutcome], None)
    else if result.RefreshFails? then Outcome(m, [RefreshCalled], None)
    else
      var renewed := Renewed(rec, result);
      var m' := m.(stored := Saved(m.stored, renewed, how));
      if how.Saves? then
        Outcome(m', [RefreshCalled, Persisted(renewed), TokenReturned(renewed.access)], Some(renewed.access))
      else Outcome(m', [RefreshCalled], None)
  }

  function TokenEffect(skew: int, m: Mode, w: World): Outcome {
    if m.quarantined || w.load.LoadFails? || m.stored.None? then Outcome(m, [], None)
    else
      var rec := m.stored.value;
      if rec.quarantined then Outcome(m.(quarantined := true), [], None)
      else if FreshEnough(rec, w.now, skew) then Outcome(m, [TokenReturned(rec.access)], Some(rec.access))
      else if Blank(rec.refresh) || w.refresher.None? then Outcome(m, [], None)
      else AfterRefresh(m, rec, w.refresher.value, w.save)
  }

  /** One call: the state it leaves, what happens and what it returns. */
  function Effect(skew: int, m: Mode, call: CallOp): Outcome {
    match call
    case TokenCall(w) => TokenEffect(skew, m, w)
    case SaveCall(rec, how) =>
      Outcome(Mode(if how.Saves? then rec.quarantined else m.quarantined, Saved(m.stored, rec, how)), [], None)
    case DeleteCall(done) =>
      Outcome(Mode(!done.Deletes? && m.quarantined, if done == DeleteFails(false) then m.stored else None), [], None)
  }

  // ----- Whole runs -----

  /** The state after a run of calls. */
  function ModeAfter(skew: int, m: Mode, calls: seq<CallOp>): Mode {
    if calls == [] then m else Effect(skew, ModeAfter(skew, m, calls[..|calls| - 1]), calls[|calls| - 1]).mode
  }

  /** What call `k` of a run does. */
  function OutcomeAt(skew: int, m: Mode, calls: seq<CallOp>, k: nat): Outcome
    requires k < |calls|
  {
    Effect(skew, ModeAfter(skew, m, calls[..k]), calls[k])
  }

  function Log(skew: int, m: Mode, calls: seq<CallOp>): seq<Event> {
    if calls == [] then [] else
      var k := |calls| - 1;
      Log(skew, m, calls[..k]) + OutcomeAt(skew, m, calls, k).events
  }

  function Tokens(skew: int, m: Mode, calls: seq<CallOp>): seq<Option<string>> {
    seq(|calls|, k requires 0 <= k < |calls| => OutcomeAt(skew, m, calls, k).token)
  }

  /** A call that releases the latch. */
  predicate Clears(call: CallOp) {
    match call
    case TokenCall(_) => false
    case SaveCall(rec, how) => how.Saves? && !rec.quarantined
    case DeleteCall(done) => done.Deletes?
  }

  lemma ModeStep(skew: int, m: Mode, calls: seq<CallOp>, k: nat)
    requires k < |calls|
    ensures ModeAfter(skew, m, calls[..k + 1]) == OutcomeAt(skew, m, calls, k).mode
  {
    assert calls[..k + 1][..k] == calls[..k];
  }

  /** Only a clearing call releases the latch, and under it nothing happens at all. */
  lemma LatchHolds(skew: int, m: Mode, call: CallOp)
    requires m.quarantined && !Clears(call)
    ensures Effect(skew, m, call).mode.quarantined && Effect(skew, m, call).events == [] &&
            Effect(skew, m, call).token.None?
  {
  }

  lemma {:induction false} StaysLatched(skew: int, m: Mode, calls: seq<CallOp>, i: nat, j: nat)
    requires i <= j <= |calls| && ModeAfter(skew, m, calls[..i]).quarantined
    requires forall n :: i <= n < j ==> !Clears(calls[n])
    ensures ModeAfter(skew, m, calls[..j]).quarantined
    decreases j
  {
    if i < j {
      StaysLatched(skew, m, calls, i, j - 1);
      ModeStep(skew, m, calls, j - 1);
      LatchHolds(skew, ModeAfter(skew, m, calls[..j - 1]), calls[j - 1]);
    }
  }

  lemma TerminalLatches(skew: int, m: Mode, call: CallOp)
    requires TerminalOutcome in Effect(skew, m, call).events
    ensures Effect(skew, m, call).mode.quarantined && Effect(skew, m, call).token.None?
  {
  }

  /** Quarantine latch: in every run against any store and refresher, between a call with a terminal
      outcome and a later call of the refresher there was a successful Delete or a successful Save of
      a record that is not quarantined. */
  lemma NoReplay(skew: int, m: Mode, calls: seq<CallOp>, i: nat, j: nat)
    requires i < j < |calls|
    requires TerminalOutcome in OutcomeAt(skew, m, calls, i).events &&
             RefreshCalled in OutcomeAt(skew, m, calls, j).events
    ensures exists n :: i < n < j && Clears(calls[n])
  {
    if forall n :: i < n < j ==> !Clears(calls[n]) {
      TerminalLatches(skew, ModeAfter(skew, m, calls[..i]), calls[i]);
      ModeStep(skew, m, calls, i);
      StaysLatched(skew, m, calls, i + 1, j);
    }
  }

  /** The latch outlives the process wherever the quarantine was written: another session on the same
      store latches at its first load, without calling the refresher. */
  lemma RestartKeepsQuarantine(skew: int, m: Mode, call: CallOp, skew': int, w: World)
    requires TerminalOutcome in Effect(skew, m, call).events && (call.w.save.Saves? || call.w.save.written)
    requires w.load.Loads?
    ensures var restarted := Effect(skew', Mode(false, Effect(skew, m, call).mode.stored), TokenCall(w));
            restarted.mode.quarantined && restarted.events == [] && restarted.token.None?
  {
  }

  /** A token the refresher gave was persisted before it was returned: it is the record in the store
      when the call ends, and any session on that store returns it while it is fresh. */
  lemma TokensArePersisted(skew: int, m: Mode, calls: seq<CallOp>, k: nat, skew': int, w: World)
    requires k < |calls| && OutcomeAt(skew, m, calls, k).token.Some?
    ensures var o := OutcomeAt(skew, m, calls, k);
            var stored := ModeAfter(skew, m, calls[..k + 1]).stored;
            && stored.Some? && !stored.value.quarantined && o.token == Some(stored.value.access)
            && |o.events| >= 1 && o.events[|o.events| - 1] == TokenReturned(o.token.value)
            && (RefreshCalled in o.events ==>
                  o.events == [RefreshCalled, Persisted(stored.value), TokenReturned(o.token.value)])
            && (w.load.Loads? && FreshEnough(stored.value, w.now, skew') ==>
                  Effect(skew', Mode(false, stored), TokenCall(w)).token == o.token)
  {
    ModeStep(skew, m, calls, k);
  }

  /** A refresh refused with an error of section 5.2 of RFC 6749, which comes with status 400, or 401
      for a client that failed to authenticate, is not tried again until the latch is cleared. */
  lemma TokenErrorIsNotRetried(skew: int, m: Mode, calls: seq<CallOp>, i: nat, j: nat)
    requires i < j < |calls| && calls[i].TokenCall? && calls[i].w.refresher.Some? &&
             calls[i].w.refresher.value.RefreshFails?
    requires calls[i].w.refresher.value.err.httpStatus in {Some(400), Some(401)}
    requires RefreshCalled in OutcomeAt(skew, m, calls, i).events &&
             RefreshCalled in OutcomeAt(skew, m, calls, j).events
    ensures exists n :: i < n < j && Clears(calls[n])
  {
    NoReplay(skew, m, calls, i, j);
  }

  /** A timeout, throttling or server status whose text names no terminal error leaves the session as
      it was: the same call again reaches the refresher again. */
  lemma TransientFailureIsRetried(skew: int, m: Mode, w: World, w': World)
    requires w.refresher.Some? && w.refresher.value.RefreshFails? &&
             RefreshCalled in Effect(skew, m, TokenCall(w)).events
    requires var err := w.refresher.value.err;
             && err.httpStatus.Some? && (err.httpStatus.value in {408, 429} || err.httpStatus.value >= 500)
             && !err.sentinel && forall k :: 0 <= k < |TerminalTexts| ==> !ContainsText(err.lower, TerminalTexts[k])
    requires w'.load.Loads? && w'.now >= w.now && w'.refresher.Some?
    ensures Effect(skew, m, TokenCall(w)).mode == m && RefreshCalled in Effect(skew, m, TokenCall(w')).events
  {
  }

  // ----- Which token is returned -----

  /** How long a cached token must still live to be returned. */
  function Lead(skew: int): int {
    if skew > 0 then skew else 60
  }

  /** Without a refresh only the stored token is returned, and only while it outlives the lead; with
      one, only the token the refresher gave, after the stored one no longer did, and the record kept
      has that token, its expiry, and the refresh token it gave unless that was blank. */
  lemma TokenIsCurrent(skew: int, m: Mode, calls: seq<CallOp>, k: nat)
    requires k < |calls| && OutcomeAt(skew, m, calls, k).token.Some?
    ensures var o := OutcomeAt(skew, m, calls, k);
            var before := ModeAfter(skew, m, calls[..k]);
            calls[k].TokenCall? && before.stored.Some? && !before.quarantined && !before.stored.value.quarantined &&
            var rec, w := before.stored.value, calls[k].w;
            var lives := rec.access != "" && rec.expiry.Some? && w.now + Lead(skew) < rec.expiry.value;
            if RefreshCalled !in o.events then
              lives && o.token == Some(rec.access) && o.mode == before
            else
              && !lives && w.refresher.Some? && w.refresher.value.Refreshes? && w.save.Saves?
              && var given := w.refresher.value;
                 && o.token == Some(given.access) && o.mode.stored.Some?
                 && o.mode.stored.value.access == given.access && o.mode.stored.value.expiry == given.expiry
                 && o.mode.stored.value.refresh == (if Blank(given.refresh) then rec.refresh else given.refresh)
  {
  }

  /** A session that is not latched and can load its record returns the stored token, without a
      refresh, while it outlives the lead; afterwards it asks the refresher if it has one and a
      refresh token, and returns the token it gives if that is saved. */
  lemma TokenIsServed(skew: int, m: Mode, w: World)
    requires !m.quarantined && m.stored.Some? && !m.stored.value.quarantined && w.load.Loads?
    ensures var o := Effect(skew, m, TokenCall(w));
            var rec := m.stored.value;
            if rec.access != "" && rec.expiry.Some? && w.now + Lead(skew) < rec.expiry.value then
              o.token == Some(rec.access) && RefreshCalled !in o.events
            else
              && (RefreshCalled in o.events <==> !Blank(rec.refresh) && w.refresher.Some?)
              && (o.token.Some? <==>
                    RefreshCalled in o.events && w.refresher.value.Refreshes? && !Blank(w.refresher.value.access) &&
                    w.save.Saves?)
  {
  }

  /** A saved token is served at once, whatever the session was before. */
  lemma SavedTokenIsServed(skew: int, m: Mode, rec: TokenRecord, w: World)
    requires !rec.quarantined && rec.access != "" && rec.expiry.Some? && w.now + Lead(skew) < rec.expiry.value
    requires w.load.Loads?
    ensures var o := Effect(skew, Effect(skew, m, SaveCall(rec, Saves)).mode, TokenCall(w));
            o.token == Some(rec.access) && o.events == [TokenReturned(rec.access)]
  {
  }

  lemma {:induction false} StaysEmpty(skew: int, m: Mode, calls: seq<CallOp>, i: nat, j: nat)
    requires i <= j <= |calls| && ModeAfter(skew, m, calls[..i]).stored.None?
    requires forall n :: i <= n < j ==> !calls[n].SaveCall?
    ensures ModeAfter(skew, m, calls[..j]).stored.None?
    decreases j
  {
    if i < j {
      StaysEmpty(skew, m, calls, i, j - 1);
      ModeStep(skew, m, calls, j - 1);
    }
  }

  /** After a deletion no token is returned and no refresh attempted until something is saved. */
  lemma NoTokenAfterDelete(skew: int, m: Mode, calls: seq<CallOp>, i: nat, j: nat)
    requires i < j < |calls| && calls[i] == DeleteCall(Deletes)
    requires forall n :: i < n <= j ==> !calls[n].SaveCall?
    ensures OutcomeAt(skew, m, calls, j).token.None? && OutcomeAt(skew, m, calls, j).events == []
  {
    ModeStep(skew, m, calls, i);
    StaysEmpty(skew, m, calls, i + 1, j);
  }

  /** The codes of section 5.2 of RFC 6749 that end a grant are recognized in the text of any refresh
      error, whatever status it came with. */
  lemma TerminalTextIsNotRetried(skew: int, m: Mode, calls: seq<CallOp>, i: nat, j: nat, before: string, code: string,
                                 after: string)
    requires i < j < |calls| && calls[i].TokenCall? && calls[i].w.refresher.Some? &&
             calls[i].w.refresher.value.RefreshFails?
    requires code in {"invalid_grant", "invalid_client", "unauthorized_client", "unsupported_grant_type"}
    requires calls[i].w.refresher.value.err.lower == before + code + after
    requires RefreshCalled in OutcomeAt(skew, m, calls, i).events &&
             RefreshCalled in OutcomeAt(skew, m, calls, j).events
    ensures exists n :: i < n < j && Clears(calls[n])
  {
    var k := if code == "invalid_grant" then 0 else if code == "invalid_client" then 1
             else if code == "unauthorized_client" then 2 else 3;
    var lower := before + code + after;
    assert lower[|before|..|before| + |code|] == code;
    assert TextAt(lower, TerminalTexts[k], |before|);
    assert ContainsText(lower, TerminalTexts[k]);
    NoReplay(skew, m, calls, i, j);
  }

  // ----- The session object -----

  class Session {
    const skew: int
    var stored: Option<TokenRecord>
    var quarantined: bool
    var log: seq<Event>       // what the calls so far did

    constructor (skew: int, stored: Option<TokenRecord>)
      ensures this.skew == skew && Value() == Mode(false, stored) && log == []
    {
      this.skew, this.stored, quarantined, log := skew, stored, false, [];
    }

    function Value(): Mode
      reads this
    {
      Mode(quarantined, stored)
    }

    /** The store's Save: a failure may have written the record or not. */
    method StoreSave(rec: TokenRecord, how: SaveResult) returns (ok: bool)
      modifies this`stored
      ensures (ok <==> how.Saves?) && stored == Saved(old(stored), rec, how)
    {
      if how.Saves? || how.written { stored := Some(rec); }
      return how.Saves?;
    }

    /** A terminal outcome latches before it is persisted, so that a failing store cannot undo it. */
    method Quarantine(rec: TokenRecord, how: SaveResult)
      modifies this
      ensures quarantined && stored == Saved(old(stored), rec.(quarantined := true), how)
      ensures log == old(log) + [TerminalOutcome]
    {
      log := log + [TerminalOutcome];
      quarantined := true;
      var _ := StoreSave(rec.(quarantined := true), how);
    }

    method Token(w: World) returns (token: Option<string>)
      modifies this
      ensures var o := Effect(skew, old(Value()), TokenCall(w));
              Value() == o.mode && token == o.token && log == old(log) + o.events
    {
      if quarantined {
        return None;
      }
      if w.load.LoadFails? || stored.None? {
        return None;
      }
      var rec := stored.value;
      if rec.quarantined {
        quarantined := true;
        return None;
      }
      if FreshEnough(rec, w.now, skew) {
        log := log + [TokenReturned(rec.access)];
        return Some(rec.access);
      }
      if Blank(rec.refresh) || w.refresher.None? {
        return None;
      }
      token := Refresh(rec, w.refresher.value, w.save);
    }

    method Refresh(rec: TokenRecord, result: RefreshResult, how: SaveResult) returns (token: Option<string>)
      requires !quarantined
      modifies this
      ensures var o := AfterRefresh(old(Value()), rec, result, how);
              Value() == o.mode && token == o.token && log == old(log) + o.events
    {
      log := log + [RefreshCalled];
      if result.RefreshFails? {
        if IsTerminalError(result.err) { Quarantine(rec, how); }
        return None;
      }
      if Blank(result.access) {
        Quarantine(rec, how);
        return None;
      }
      var refresh := if Blank(result.refresh) then rec.refresh else result.refresh;
      var renewed := TokenRecord(result.access, refresh, result.expiry, false);
      var ok := StoreSave(renewed, how);
      if !ok {
        return None;
      }
      log := log + [Persisted(renewed)];
      log := log + [TokenReturned(renewed.access)];
      return Some(renewed.access);
    }

    method Save(rec: TokenRecord, how: SaveResult) returns (ok: bool)
      modifies this
      ensures Value() == Effect(skew, old(Value()), SaveCall(rec, how)).mode && (ok <==> how.Saves?) && log == old(log)
    {
      ok := StoreSave(rec, how);
      if !ok {
        return false;
      }
      quarantined := rec.quarantined;
    }

    /** The store's Delete: a failure may have removed the record or not; only a success releases the
        latch. */
    method Delete(done: DeleteResult) returns (ok: bool)
      modifies this
      ensures Value() == Effect(skew, old(Value()), DeleteCall(done)).mode && (ok <==> done.Deletes?) && log == old(log)
    {
      if done != DeleteFails(false) { stored := None; }
      if done.DeleteFails? {
        return false;
      }
      quarantined := false;
      return true;
    }

    method Call(call: CallOp) returns (token: Option<string>)
      modifies this
      ensures var o := Effect(skew, old(Value()), call);
              Value() == o.mode && token == o.token && log == old(log) + o.events
    {
      token := None;
      match call
      case TokenCall(w) => token := Token(w);
      case SaveCall(rec, how) => var _ := Save(rec, how);
      case DeleteCall(done) => var _ := Delete(done);
    }
  }

  /** Any run of calls through the session object returns and does what the run says. */
  method RunCalls(skew: int, stored: Option<TokenRecord>, calls: seq<CallOp>)
    returns (tokens: seq<Option<string>>, log: seq<Event>)
    ensures tokens == Tokens(skew, Mode(false, stored), calls) && log == Log(skew, Mode(false, stored), calls)
  {
    ghost var m := Mode(false, stored);
    var s := new Session(skew, stored);
    tokens := [];
    for k := 0 to |calls|
      invariant fresh(s) && s.skew == skew && s.Value() == ModeAfter(skew, m, calls[..k])
      invariant |tokens| == k && forall i :: 0 <= i < k ==> tokens[i] == OutcomeAt(skew, m, calls, i).token
      invariant s.log == Log(skew, m, calls[..k])
    {
      ModeStep(skew, m, calls, k);
      LogStep(skew, m, calls, k);
      var token := s.Call(calls[k]);
      tokens := tokens + [token];
    }
    assert calls[..|calls|] == calls;
    log := s.log;
  }

  lemma LogStep(skew: int, m: Mode, calls: seq<CallOp>, k: nat)
    requires k < |calls|
    ensures Log(skew, m, calls[..k + 1]) == Log(skew, m, calls[..k]) + OutcomeAt(skew, m, calls, k).events
  {
    assert calls[..k + 1][..k] == calls[..k];
  }
}
