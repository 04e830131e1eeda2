/** Recordings: the critical sections that change a row under its lock, and the code of each. */
module Recordings {
  import opened Domain
  import opened Store

  /** What the controller returns for a recording. */
  datatype Output = Output(code: string, checks: seq<Check>)

  /** A failed start, and whether its secrets were known by then. */
  datatype StartError = StartError(message: string, known: bool)

  /** What a poll brings back: the controller's reading, or a failure of the reading itself or of the check
      that comes after it. */
  datatype Answer = Read(output: Output) | Broken(reading: Option<Output>, message: string)

  function Reading(answer: Answer): Option<Output> {
    match answer
    case Read(output) => Some(output)
    case Broken(reading, _) => reading
  }

  /** Redaction (without an environment no secret is known), viewer address and per-user limit stay
      uninterpreted. */
  datatype Config = Config(
    redactOutput: (string, Output) -> Output,
    redactText: (Option<string>, string) -> string,
    viewer: nat -> string,
    limit: nat)

  predicate Shaped(body: Body) {
    && HasStatus(body)
    && EncryptedEnvironment in body && body[EncryptedEnvironment].Text?
    && CreatedBy in body && body[CreatedBy].Text?
    && ViewerUrl in body && Code in body && ChecksKey in body
  }

  function EnvOf(body: Body): string
    requires Shaped(body)
  {
    body[EncryptedEnvironment].text
  }

  function NewRecording(user: string, env: string, now: int): Body {
    map[CreatedBy := Text(user), StatusKey := Word(Starting), ViewerUrl := Null, Code := Text(""), ChecksKey := Checks([]),
        ErrorKey := Null, EncryptedEnvironment := Text(env), CreatedAt := Num(now), UpdatedAt := Num(now)]
  }

  // ---- the critical sections, as functions of the locked row ----

  /** Either the section leaves the row alone, or it calls `update_resource`. */
  datatype Write = Keep | Put(update: Result<Body, StoreError>)

  function ErrorChanges(text: string): Body {
    map[StatusKey := Word(Error), ErrorKey := Text(text), ViewerUrl := Null]
  }

  function StartMessage(cfg: Config, body: Body, error: StartError): string
    requires Shaped(body)
  {
    cfg.redactText(if error.known then Some(EnvOf(body)) else None, error.message)
  }

  function Message(cfg: Config, body: Body, message: string): string
    requires Shaped(body)
  {
    cfg.redactText(Some(EnvOf(body)), message)
  }

  function OutputChanges(cfg: Config, body: Body, output: Output): Body
    requires Shaped(body)
  {
    var safe := cfg.redactOutput(EnvOf(body), output);
    map[Code := Text(safe.code), ChecksKey := Checks(safe.checks)]
  }

  /** The controller answered the start. */
  function StartSection(cfg: Config, id: nat, body: Body, outcome: Result<(), StartError>, now: int): Write
    requires Shaped(body)
  {
    match outcome
    case Success(_) =>
      if StatusOf(body) == Starting then
        Put(Updated(Recording, body, map[StatusKey := Word(Ready), ViewerUrl := Text(cfg.viewer(id))], now))
      else Keep
    case Failure(error) =>
      if StatusOf(body) in {Starting, Ready} then
        Put(Updated(Recording, body, ErrorChanges(StartMessage(cfg, body, error)), now))
      else Keep
  }

  /** A stop that no longer has to wait for the start. */
  function StopSection(body: Body, now: int): Write
    requires Shaped(body)
  {
    if StatusOf(body) != Ready then Keep
    else Put(Updated(Recording, body, map[StatusKey := Word(Stopping), ViewerUrl := Null], now))
  }

  function FlushSection(cfg: Config, body: Body, outcome: Result<Output, string>, now: int): Write
    requires Shaped(body)
  {
    match outcome
    case Success(output) =>
      Put(Updated(Recording, body, OutputChanges(cfg, body, output) + map[StatusKey := Word(Stopped), ViewerUrl := Null], now))
    case Failure(message) => Put(Updated(Recording, body, ErrorChanges(Message(cfg, body, message)), now))
  }

  /** A failure whose message is empty is taken for none; if there is no reading either, the request itself
      fails and the row stays. */
  function PollSection(cfg: Config, body: Body, answer: Answer, now: int): Write
    requires Shaped(body)
  {
    if StatusOf(body) != Ready then Keep
    else if answer.Broken? && Message(cfg, body, answer.message) != "" then
      Put(Updated(Recording, body, ErrorChanges(Message(cfg, body, answer.message)), now))
    else match Reading(answer)
      case Some(output) => Put(Updated(Recording, body, OutputChanges(cfg, body, output), now))
      case None => Keep
  }

  /** The failing poll has no reading, and its message is empty once redacted: the code behind the test of the
      message uses a reading that was never assigned. */
  predicate Unpublishable(cfg: Config, body: Body, answer: Answer)
    requires Shaped(body)
  {
    StatusOf(body) == Ready && answer.Broken? && answer.reading.None? && Message(cfg, body, answer.message) == ""
  }

  // ---- the same sections as code on the locked row ----

  /** `raised` tells whether `update_resource` raised; a row it refuses stays as it was. */
  predicate Wrote(write: Write, before: Body, after: Body, raised: bool) {
    match write
    case Keep => !raised && after == before
    case Put(Success(merged)) => !raised && after == merged
    case Put(Failure(_)) => raised && after == before
  }

  /** The tail of `start_recording`; `undo` asks the caller to stop the controller again. */
  method SettleStart(cfg: Config, id: nat, value: Resource, outcome: Result<(), StartError>, now: int)
    returns (undo: bool, raised: bool)
    requires value.kind == Recording && Shaped(value.body)
    modifies value
    ensures Wrote(StartSection(cfg, id, old(value.body), outcome, now), old(value.body), value.body, raised)
    ensures undo <==> outcome.Success? && StatusOf(old(value.body)) != Starting
  {
    undo, raised := false, false;
    var r: Result<(), StoreError> := Success(());
    if outcome.Success? {
      if StatusOf(value.body) == Starting {
        r := value.Update(map[StatusKey := Word(Ready), ViewerUrl := Text(cfg.viewer(id))], now);
      } else {
        undo := true;
      }
    } else if StatusOf(value.body) == Starting || StatusOf(value.body) == Ready {
      var message := StartMessage(cfg, value.body, outcome.error);
      r := value.Update(map[StatusKey := Word(Error), ErrorKey := Text(message), ViewerUrl := Null], now);
    }
    raised := r.Failure?;
  }

  /** The middle of `finish_recording`; `flush` tells whether a flush task is spawned. */
  method FinishUnderLock(value: Resource, now: int) returns (flush: bool, raised: bool)
    requires value.kind == Recording && Shaped(value.body)
    modifies value
    ensures Wrote(StopSection(old(value.body), now), old(value.body), value.body, raised)
    ensures flush <==> StatusOf(old(value.body)) == Ready && !raised
  {
    if StatusOf(value.body) != Ready {
      return false, false;
    }
    var r := value.Update(map[StatusKey := Word(Stopping), ViewerUrl := Null], now);
    return r.Success?, r.Failure?;
  }

  /** `flush_and_publish` after the controller answered. */
  method PublishFlush(cfg: Config, value: Resource, outcome: Result<Output, string>, now: int) returns (raised: bool)
    requires value.kind == Recording && Shaped(value.body)
    modifies value
    ensures Wrote(FlushSection(cfg, old(value.body), outcome, now), old(value.body), value.body, raised)
  {
    var changes: Body;
    match outcome {
      case Success(output) =>
        var safe := cfg.redactOutput(EnvOf(value.body), output);
        changes := map[Code := Text(safe.code), ChecksKey := Checks(safe.checks)]
                 + map[StatusKey := Word(Stopped), ViewerUrl := Null];
      case Failure(message) =>
        var safe := Message(cfg, value.body, message);
        changes := map[StatusKey := Word(Error), ErrorKey := Text(safe), ViewerUrl := Null];
    }
    var r := value.Update(changes, now);
    raised := r.Failure?;
  }

  /** The second half of `get_recording`, after the re-read under lock; `unbound` is the failure of a request
      that has nothing to publish. */
  method PublishPoll(cfg: Config, value: Resource, answer: Answer, now: int) returns (raised: bool, unbound: bool)
    requires value.kind == Recording && Shaped(value.body)
    modifies value
    ensures Wrote(PollSection(cfg, old(value.body), answer, now), old(value.body), value.body, raised)
    ensures unbound <==> Unpublishable(cfg, old(value.body), answer)
  {
    raised, unbound := false, false;
    var error := if answer.Broken? then Message(cfg, value.body, answer.message) else "";
    if StatusOf(value.body) == Ready {
      var r: Result<(), StoreError> := Success(());
      if error != "" {
        r := value.Update(map[StatusKey := Word(Error), ErrorKey := Text(error), ViewerUrl := Null], now);
      } else if Reading(answer).Some? {
        var safe := cfg.redactOutput(EnvOf(value.body), Reading(answer).value);
        r := value.Update(map[Code := Text(safe.code), ChecksKey := Checks(safe.checks)], now);
      } else {
        unbound := true;
      }
      raised := r.Failure?;
    }
  }

  // ---- what the sections write ----

  predicate Accepted(write: Write) {
    write.Put? && write.update.Success?
  }

  /** The row is in error with exactly this text, without a viewer, and otherwise as before. */
  predicate Fails(before: Body, after: Body, text: string) {
    && HasStatus(after) && StatusOf(after) == Error && OnlyChanges(before, after, {StatusKey, ErrorKey, ViewerUrl})
    && ErrorKey in after && after[ErrorKey] == Text(text) && ViewerUrl in after && after[ViewerUrl] == Null
  }

  /** The row carries exactly this code and these checks. */
  predicate Shows(after: Body, safe: Output) {
    Code in after && after[Code] == Text(safe.code) && ChecksKey in after && after[ChecksKey] == Checks(safe.checks)
  }

  /** A start that succeeded makes a starting row ready under its viewer's address; one that failed closes a row
      that is starting or ready with the redacted message; any other row is left alone. */
  lemma StartWrites(cfg: Config, id: nat, body: Body, outcome: Result<(), StartError>, now: int)
    requires Shaped(body)
    ensures var write := StartSection(cfg, id, body, outcome, now);
            if outcome.Success? && body[StatusKey] == Word(Starting)
            then && Accepted(write)
                 && var after := write.update.value;
                 && HasStatus(after) && StatusOf(after) == Ready && OnlyChanges(body, after, {StatusKey, ViewerUrl})
                 && ViewerUrl in after && after[ViewerUrl] == Text(cfg.viewer(id))
            else if outcome.Failure? && body[StatusKey] in {Word(Starting), Word(Ready)}
            then && Accepted(write)
                 && var env := if outcome.error.known then Some(body[EncryptedEnvironment].text) else None;
                 Fails(body, write.update.value, cfg.redactText(env, outcome.error.message))
            else write.Keep?
  {
    hide Updated, OnlyChanges;
    if outcome.Success? {
      if body[StatusKey] == Word(Starting) {
        var changes: Body := map[StatusKey := Word(Ready), ViewerUrl := Text(cfg.viewer(id))];
        UpdateWrites(Recording, body, changes, now);
        assert changes.Keys == {StatusKey, ViewerUrl};
      }
    } else if StatusOf(body) in {Starting, Ready} {
      FailureWrites(body, StartMessage(cfg, body, outcome.error), now);
    }
  }

  lemma FailureWrites(body: Body, text: string, now: int)
    requires Shaped(body) && StatusOf(body) in {Starting, Ready, Stopping}
    ensures var update := Updated(Recording, body, ErrorChanges(text), now);
            update.Success? && Fails(body, update.value, text)
  {
    hide Updated, OnlyChanges;
    UpdateWrites(Recording, body, ErrorChanges(text), now);
    assert ErrorChanges(text).Keys == {StatusKey, ErrorKey, ViewerUrl};
  }

  /** A stop moves a ready row to stopping and takes the viewer away; any other row is left alone. */
  lemma StopWrites(body: Body, now: int)
    requires Shaped(body)
    ensures var write := StopSection(body, now);
            if body[StatusKey] == Word(Ready)
            then && Accepted(write)
                 && var after := write.update.value;
                 && HasStatus(after) && StatusOf(after) == Stopping && OnlyChanges(body, after, {StatusKey, ViewerUrl})
                 && ViewerUrl in after && after[ViewerUrl] == Null
            else write.Keep?
  {
    hide Updated, OnlyChanges;
    if StatusOf(body) == Ready {
      var changes: Body := map[StatusKey := Word(Stopping), ViewerUrl := Null];
      UpdateWrites(Recording, body, changes, now);
      assert changes.Keys == {StatusKey, ViewerUrl};
    }
  }

  /** A flush stops a stopping row with the redacted answer, or closes it with the redacted message. */
  lemma FlushWrites(cfg: Config, body: Body, outcome: Result<Output, string>, now: int)
    requires Shaped(body) && StatusOf(body) == Stopping
    ensures var write := FlushSection(cfg, body, outcome, now);
            var env := body[EncryptedEnvironment].text;
            && Accepted(write)
            && var after := write.update.value;
            if outcome.Success?
            then && HasStatus(after) && StatusOf(after) == Stopped && Shows(after, cfg.redactOutput(env, outcome.value))
                 && OnlyChanges(body, after, {StatusKey, ViewerUrl, Code, ChecksKey})
                 && ViewerUrl in after && after[ViewerUrl] == Null
            else Fails(body, after, cfg.redactText(Some(env), outcome.error))
  {
    hide Updated, OnlyChanges;
    if outcome.Success? {
      var changes := OutputChanges(cfg, body, outcome.value) + map[StatusKey := Word(Stopped), ViewerUrl := Null];
      assert changes.Keys == {StatusKey, ViewerUrl, Code, ChecksKey} && StatusOf(changes) == Stopped;
      UpdateWrites(Recording, body, changes, now);
    } else {
      FailureWrites(body, Message(cfg, body, outcome.error), now);
    }
  }

  lemma StatusKept(body: Body, after: Body)
    requires HasStatus(body) && OnlyChanges(body, after, {Code, ChecksKey})
    ensures HasStatus(after) && StatusOf(after) == StatusOf(body)
  {
    assert StatusKey in body.Keys - {Code, ChecksKey} - {UpdatedAt};
  }

  /** A poll writes to a ready row only. A failure whose redacted message is not empty closes it with that
      message; otherwise a reading is published in its redacted form and the row stays ready. */
  lemma PollWrites(cfg: Config, body: Body, answer: Answer, now: int)
    requires Shaped(body)
    ensures var write := PollSection(cfg, body, answer, now);
            var env := body[EncryptedEnvironment].text;
            if body[StatusKey] != Word(Ready) then write.Keep?
            else if answer.Broken? && cfg.redactText(Some(env), answer.message) != ""
            then Accepted(write) && Fails(body, write.update.value, cfg.redactText(Some(env), answer.message))
            else if answer.Broken? && answer.reading.None? then write.Keep?
            else
              var output := if answer.Read? then answer.output else answer.reading.value;
              && Accepted(write)
              && var after := write.update.value;
              && HasStatus(after) && StatusOf(after) == Ready && Shows(after, cfg.redactOutput(env, output))
              && OnlyChanges(body, after, {Code, ChecksKey})
  {
    hide Updated, OnlyChanges;
    if StatusOf(body) == Ready {
      if answer.Broken? && Message(cfg, body, answer.message) != "" {
        FailureWrites(body, Message(cfg, body, answer.message), now);
      } else if Reading(answer).Some? {
        var changes := OutputChanges(cfg, body, Reading(answer).value);
        UpdateWrites(Recording, body, changes, now);
        assert changes.Keys == {Code, ChecksKey};
        StatusKept(body, Updated(Recording, body, changes, now).value);
      }
    }
  }

  /** No section touches the environment, the owner or the presence of a key. */
  lemma StaysShaped(body: Body, after: Body)
    requires Shaped(body) && HasStatus(after)
    requires OnlyChanges(body, after, {StatusKey, ErrorKey, ViewerUrl, Code, ChecksKey})
    requires ViewerUrl in after && Code in after && ChecksKey in after
    ensures Shaped(after) && EnvOf(after) == EnvOf(body) && after[CreatedBy] == body[CreatedBy]
  {
    assert EncryptedEnvironment in body.Keys - {StatusKey, ErrorKey, ViewerUrl, Code, ChecksKey} - {UpdatedAt};
    assert CreatedBy in body.Keys - {StatusKey, ErrorKey, ViewerUrl, Code, ChecksKey} - {UpdatedAt};
  }
}
