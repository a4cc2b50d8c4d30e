/**
 * The server's execution service: one long-lived container per language, kept
 * in a pool, and the executions currently running in them, keyed by session.
 * Discovery adopts containers that already exist when the service first
 * starts; a language without a usable container gets a freshly created one.
 * Running code deploys it as the language's single source file and starts the
 * language's command in an attached exec stream.
 */
module ExecutionService {
  import opened Wrappers
  import opened Registry
  import opened DockerEngine

  /** The pool's record of a language's container. */
  datatype ContainerInfo = ContainerInfo(id: ContainerId, language: Language)

  /** What a started execution hands back: the container it runs in and its stream. */
  datatype Execution = Execution(container: ContainerId, stream: StreamId)

  predicate RunningIn(containers: map<ContainerId, Container>, id: ContainerId)
  {
    id in containers && containers[id].state == Running
  }

  /** A pool entry names its language, an identifier the engine handed out, and (while the container exists) an image of that language. */
  predicate Pooled(containers: map<ContainerId, Container>, nextId: nat, language: Language, info: ContainerInfo)
  {
    && info.language == language
    && info.id < nextId
    && (info.id in containers ==> IsPrefix(ImageName(language), containers[info.id].image))
  }

  /** No two languages share a container. */
  predicate Distinct(pool: map<Language, ContainerInfo>)
  {
    forall l1, l2 :: l1 in pool && l2 in pool && l1 != l2 ==> pool[l1].id != pool[l2].id
  }

  function PoolIds(pool: map<Language, ContainerInfo>): set<ContainerId>
  {
    set l | l in pool :: pool[l].id
  }

  // ---------------------------------------------------------------------------
  // Discovery, as a fold over the engine's listing
  // ---------------------------------------------------------------------------

  /**
   * Discovery would claim `entry` for `language`: the entry's image belongs to the
   * language and the container is running or could be started (`started`).
   */
  predicate Claims(entry: ContainerSummary, started: bool, language: Language)
  {
    MatchLanguage(entry.image) == Some(language) && (entry.state == Running || started)
  }

  /** One listing entry: adopted when it is claimed for a language that has no container yet. */
  function DiscoverStep(pool: map<Language, ContainerInfo>, entry: ContainerSummary, started: bool): (r: map<Language, ContainerInfo>)
    ensures forall l :: l in pool ==> l in r && r[l] == pool[l]
    ensures forall l :: Claims(entry, started, l) ==> l in r
    ensures forall l :: l in r && l !in pool ==> Claims(entry, started, l) && r[l] == ContainerInfo(entry.id, l)
  {
    match MatchLanguage(entry.image)
    case None => pool
    case Some(language) =>
      if language !in pool && (entry.state == Running || started)
      then pool[language := ContainerInfo(entry.id, language)]
      else pool
  }

  /** The pool discovery builds from a listing; `started[i]` says whether starting entry `i` would succeed. */
  function Discover(listing: seq<ContainerSummary>, started: seq<bool>): (pool: map<Language, ContainerInfo>)
    requires |started| == |listing|
    ensures forall l :: l in pool ==> pool[l].language == l
    ensures listing == [] ==> pool == map[]
  {
    if listing == [] then map[]
    else
      var n := |listing| - 1;
      DiscoverStep(Discover(listing[..n], started[..n]), listing[n], started[n])
  }

  /** Every adopted container was claimed for its language by some listing entry. */
  lemma {:induction false} DiscoverSound(listing: seq<ContainerSummary>, started: seq<bool>, language: Language)
    requires |started| == |listing|
    requires language in Discover(listing, started)
    ensures Discover(listing, started)[language].language == language
    ensures exists i :: 0 <= i < |listing| && Claims(listing[i], started[i], language) &&
                        listing[i].id == Discover(listing, started)[language].id
  {
    var n := |listing| - 1;
    var before := Discover(listing[..n], started[..n]);
    if language in before {
      DiscoverSound(listing[..n], started[..n], language);
      var i :| 0 <= i < n && Claims(listing[..n][i], started[..n][i], language) &&
               listing[..n][i].id == before[language].id;
      assert listing[i] == listing[..n][i] && started[i] == started[..n][i];
    } else {
      assert Claims(listing[n], started[n], language);
    }
  }

  /** A language some entry is claimed for ends up in the pool. */
  lemma {:induction false} DiscoverComplete(listing: seq<ContainerSummary>, started: seq<bool>, i: nat, language: Language)
    requires |started| == |listing|
    requires i < |listing| && Claims(listing[i], started[i], language)
    ensures language in Discover(listing, started)
  {
    var n := |listing| - 1;
    if i < n {
      assert listing[..n][i] == listing[i] && started[..n][i] == started[i];
      DiscoverComplete(listing[..n], started[..n], i, language);
    }
  }

  /** The first entry claimed for a language is the one adopted; later ones are ignored. */
  lemma {:induction false} DiscoverFirstWins(listing: seq<ContainerSummary>, started: seq<bool>, i: nat, language: Language)
    requires |started| == |listing|
    requires i < |listing| && Claims(listing[i], started[i], language)
    requires forall j :: 0 <= j < i ==> !Claims(listing[j], started[j], language)
    ensures language in Discover(listing, started)
    ensures Discover(listing, started)[language] == ContainerInfo(listing[i].id, language)
  {
    DiscoverComplete(listing, started, i, language);
    var n := |listing| - 1;
    var before := Discover(listing[..n], started[..n]);
    if i < n {
      assert listing[..n][i] == listing[i] && started[..n][i] == started[i];
      forall j | 0 <= j < i
        ensures !Claims(listing[..n][j], started[..n][j], language)
      {
        assert listing[..n][j] == listing[j] && started[..n][j] == started[j];
      }
      DiscoverFirstWins(listing[..n], started[..n], i, language);
    } else if language in before {
      forall j | 0 <= j < n
        ensures !Claims(listing[..n][j], started[..n][j], language)
      {
        assert listing[..n][j] == listing[j] && started[..n][j] == started[j];
      }
      DiscoverSound(listing[..n], started[..n], language);
    }
  }

  /** Discovery never adopts a container for C++: its image is claimed for C first. */
  lemma {:induction false} DiscoverNeverCpp(listing: seq<ContainerSummary>, started: seq<bool>)
    requires |started| == |listing|
    ensures Cpp !in Discover(listing, started)
  {
    if listing != [] {
      var n := |listing| - 1;
      DiscoverNeverCpp(listing[..n], started[..n]);
      NeverMatchesCpp(listing[n].image);
    }
  }

  /** The exit code reported for a finished stream: `ExitCode || 0`, and 0 when the exec cannot be inspected. */
  function ExitCodeOf(inspection: Option<Option<int>>): (code: int)
    ensures code != 0 ==> inspection == Some(Some(code))
    ensures inspection.None? || inspection == Some(None) ==> code == 0
    ensures inspection.Some? && inspection.value.Some? ==> code == inspection.value.value
  {
    match inspection
    case Some(Some(n)) => n
    case _ => 0
  }

  class DockerExecutionService {
    const engine: Engine
    /** session id -> the container its execution runs in */
    var activeExecutions: map<string, ContainerInfo>
    /** language -> its pooled container */
    var languageContainers: map<Language, ContainerInfo>
    var initialized: bool

    ghost predicate Valid()
      reads this, engine
    {
      && engine.Valid()
      && (!initialized ==> languageContainers == map[])
      && (forall l :: l in languageContainers ==>
            Pooled(engine.containers, engine.nextId, l, languageContainers[l]))
      && Distinct(languageContainers)
    }

    /** Every pooled container is running (what discovery establishes). */
    ghost predicate PoolRunning()
      reads this, engine
    {
      forall l :: l in languageContainers ==>
        Pooled(engine.containers, engine.nextId, l, languageContainers[l]) &&
        RunningIn(engine.containers, languageContainers[l].id)
    }

    constructor (engine: Engine)
      requires engine.Valid()
      ensures Valid()
      ensures this.engine == engine
      ensures activeExecutions == map[] && languageContainers == map[] && !initialized
    {
      this.engine := engine;
      activeExecutions := map[];
      languageContainers := map[];
      initialized := false;
    }

    /**
     * Adopt the existing containers, once. A listing failure leaves everything as it
     * was; a container that cannot be started is skipped. `listing` and `started`
     * record what the engine reported.
     */
    method Initialize() returns (ok: bool, ghost listing: seq<ContainerSummary>, ghost started: seq<bool>)
      requires Valid()
      modifies this, engine
      ensures Valid()
      ensures activeExecutions == old(activeExecutions)
      ensures engine.nextId == old(engine.nextId) && engine.images == old(engine.images)
      ensures old(initialized) ==> (ok && initialized && languageContainers == old(languageContainers) &&
                                    engine.containers == old(engine.containers))
      ensures !old(initialized) && !ok ==> (!initialized && languageContainers == map[] &&
                                           engine.containers == old(engine.containers))
      ensures !old(initialized) && ok ==> (initialized && |started| == |listing| &&
                                          Listing(old(engine.containers), listing) &&
                                          languageContainers == Discover(listing, started))
      ensures ok ==> forall l :: l in languageContainers && l !in old(languageContainers) ==>
                                   RunningIn(engine.containers, languageContainers[l].id)
    {
      if initialized {
        return true, [], [];
      }
      var listed := engine.ListContainers();
      if listed.Err? {
        return false, [], [];
      }
      listing := listed.value;
      started := AdoptAll(listed.value);
      initialized := true;
      return true, listing, started;
    }

    /** Discovery proper: every entry of the listing in turn, starting from an empty pool. */
    method AdoptAll(entries: seq<ContainerSummary>) returns (ghost started: seq<bool>)
      requires Valid() && !initialized
      requires Listing(engine.containers, entries)
      modifies this, engine
      ensures |started| == |entries| && languageContainers == Discover(entries, started)
      ensures activeExecutions == old(activeExecutions) && !initialized
      ensures engine.Valid()
      ensures engine.nextId == old(engine.nextId) && engine.images == old(engine.images)
      ensures engine.containers.Keys == old(engine.containers).Keys
      ensures PoolRunning() && Distinct(languageContainers)
    {
      started := [];
      var i := 0;
      while i < |entries|
        invariant 0 <= i <= |entries| && |started| == i
        invariant activeExecutions == old(activeExecutions) && !initialized
        invariant engine.Valid()
        invariant engine.nextId == old(engine.nextId) && engine.images == old(engine.images)
        invariant engine.containers.Keys == old(engine.containers).Keys
        invariant forall j :: i <= j < |entries| ==> Describes(engine.containers, entries[j])
        invariant languageContainers == Discover(entries[..i], started)
        invariant PoolRunning()
        invariant forall l, j :: l in languageContainers && i <= j < |entries| ==>
                    languageContainers[l].id != entries[j].id
        invariant Distinct(languageContainers)
      {
        var ok := Adopt(entries[i]);
        assert entries[..i + 1][..i] == entries[..i];
        started := started + [ok];
        assert started[..i] == started[..i + 1][..i];
        i := i + 1;
      }
      assert entries[..i] == entries;
    }

    /** One listing entry: adopted when it is claimed for a language that has no container yet. */
    method Adopt(entry: ContainerSummary) returns (started: bool)
      requires engine.Valid() && Describes(engine.containers, entry)
      requires PoolRunning() && Distinct(languageContainers)
      requires forall l :: l in languageContainers ==> languageContainers[l].id != entry.id
      modifies this, engine
      ensures PoolRunning() && Distinct(languageContainers)
      ensures forall l :: l in languageContainers ==>
                languageContainers[l].id == entry.id ||
                (l in old(languageContainers) && languageContainers[l] == old(languageContainers)[l])
      ensures languageContainers == DiscoverStep(old(languageContainers), entry, started)
      ensures engine.containers == old(engine.containers) ||
              engine.containers == old(engine.containers)[entry.id := old(engine.containers)[entry.id].(state := Running)]
      ensures activeExecutions == old(activeExecutions) && initialized == old(initialized)
      ensures engine.nextId == old(engine.nextId) && engine.images == old(engine.images)
    {
      var claimed := MatchLanguage(entry.image);
      if claimed.Some? && claimed.value !in languageContainers {
        started := Claim(entry, claimed.value);
      } else {
        started := true;
      }
    }

    /**
     * An entry claimed for `language`, which has no container yet: started unless it
     * is running, and pooled unless starting fails.
     */
    method Claim(entry: ContainerSummary, language: Language) returns (started: bool)
      requires engine.Valid() && Describes(engine.containers, entry)
      requires IsPrefix(ImageName(language), entry.image) && language !in languageContainers
      requires PoolRunning() && Distinct(languageContainers)
      requires forall l :: l in languageContainers ==> languageContainers[l].id != entry.id
      modifies this, engine
      ensures PoolRunning() && Distinct(languageContainers)
      ensures languageContainers == if entry.state == Running || started
                                    then old(languageContainers)[language := ContainerInfo(entry.id, language)]
                                    else old(languageContainers)
      ensures engine.containers == old(engine.containers) ||
              engine.containers == old(engine.containers)[entry.id := old(engine.containers)[entry.id].(state := Running)]
      ensures activeExecutions == old(activeExecutions) && initialized == old(initialized)
      ensures engine.nextId == old(engine.nextId) && engine.images == old(engine.images)
    {
      started := true;
      if entry.state != Running {
        started := engine.Start(entry.id);
      }
      if started {
        languageContainers := languageContainers[language := ContainerInfo(entry.id, language)];
      }
    }

    /**
     * The running container for `language`: the pooled one, revived if need be, or,
     * when there is none or it is gone, a newly created one.
     */
    method GetOrCreateContainer(language: Language) returns (r: Result<ContainerInfo>)
      requires Valid()
      modifies this, engine
      ensures Valid()
      ensures activeExecutions == old(activeExecutions)
      ensures r.Ok? ==> (initialized && language in languageContainers && languageContainers[language] == r.value &&
                         RunningIn(engine.containers, r.value.id))
      ensures r.Ok? && old(initialized) ==>
                (language in old(languageContainers) && r.value == old(languageContainers)[language]) ||
                (r.value.id == old(engine.nextId) && engine.containers[r.value.id].image == Image(language))
      ensures r.Err? ==> language !in languageContainers
      ensures old(initialized) ==> languageContainers - {language} == old(languageContainers) - {language}
    {
      ghost var listing, started;
      var ok;
      ok, listing, started := Initialize();
      if !ok {
        return Err("cannot list containers");
      }
      if language in languageContainers {
        var alive := Revive(language);
        if alive {
          return Ok(languageContainers[language]);
        }
      }
      r := CreateLanguageContainer(language);
    }

    /**
     * Make the pooled container for `language` usable: started when it is stopped,
     * unpaused when it is paused. One that cannot be inspected or revived is evicted.
     */
    method Revive(language: Language) returns (alive: bool)
      requires Valid() && language in languageContainers
      modifies this, engine
      ensures Valid()
      ensures alive ==> (languageContainers == old(languageContainers) &&
                         RunningIn(engine.containers, languageContainers[language].id))
      ensures !alive ==> languageContainers == old(languageContainers) - {language}
      ensures activeExecutions == old(activeExecutions) && initialized == old(initialized)
      ensures engine.nextId == old(engine.nextId)
    {
      var id := languageContainers[language].id;
      var inspection := engine.Inspect(id);
      alive := inspection.Ok?;
      if alive && !inspection.value.running {
        alive := engine.Start(id);
      } else if alive && inspection.value.paused {
        alive := engine.Unpause(id);
      }
      if !alive {
        languageContainers := languageContainers - {language};
      }
    }

    /** The image is present locally afterwards, unless pulling it fails. */
    method PullImageIfNeeded(image: string) returns (ok: bool)
      modifies engine
      ensures ok ==> image in engine.images
      ensures old(engine.images) <= engine.images
      ensures engine.containers == old(engine.containers) && engine.nextId == old(engine.nextId)
    {
      ok := engine.InspectImage(image);
      if !ok {
        ok := engine.Pull(image);
      }
    }

    /** A new container from the language's image, started and pooled. */
    method CreateLanguageContainer(language: Language) returns (r: Result<ContainerInfo>)
      requires Valid() && initialized && language !in languageContainers
      modifies this, engine
      ensures Valid()
      ensures r.Ok? ==> (r.value == ContainerInfo(old(engine.nextId), language) &&
                         languageContainers == old(languageContainers)[language := r.value] &&
                         RunningIn(engine.containers, r.value.id) &&
                         engine.containers[r.value.id].image == Image(language))
      ensures r.Err? ==> languageContainers == old(languageContainers)
      ensures activeExecutions == old(activeExecutions) && initialized == old(initialized)
    {
      var pulled := PullImageIfNeeded(Image(language));
      if !pulled {
        return Err("cannot pull " + Image(language));
      }
      var created := engine.CreateContainer(Image(language));
      if created.Err? {
        return Err(created.message);
      }
      var running := engine.Start(created.value);
      if !running {
        return Err("cannot start container");
      }
      OwnImageMatches(language);
      var info := ContainerInfo(created.value, language);
      languageContainers := languageContainers[language := info];
      return Ok(info);
    }

    /**
     * Run `code` for the session in the language registered under `key`: an unknown
     * key is refused before anything happens; otherwise the session is tracked, the
     * code is written to the language's deployed path and its command started. Any
     * later failure drops the session's tracking.
     */
    method ExecuteCode(sessionId: string, key: string, code: string) returns (r: Result<Execution>)
      requires Valid()
      modifies this, engine
      ensures Valid()
      ensures Lookup(key).None? ==> (r == Err("Unsupported language: " + key) &&
                                     activeExecutions == old(activeExecutions) &&
                                     languageContainers == old(languageContainers))
      ensures Lookup(key).None? ==> unchanged(this, engine)
      ensures Lookup(key).Some? && old(initialized) ==>
                languageContainers - {Lookup(key).value} == old(languageContainers) - {Lookup(key).value}
      ensures r.Ok? ==> (Lookup(key).Some? &&
                         var language := Lookup(key).value;
                         var info := ContainerInfo(r.value.container, language);
                         && language in languageContainers && languageContainers[language] == info
                         && activeExecutions == old(activeExecutions)[sessionId := info]
                         && RunningIn(engine.containers, info.id)
                         && DeployedPath(language) in engine.containers[info.id].files
                         && engine.containers[info.id].files[DeployedPath(language)] == code)
      ensures r.Err? && Lookup(key).Some? ==> activeExecutions == old(activeExecutions) - {sessionId}
    {
      var config := Lookup(key);
      if config.None? {
        return Err("Unsupported language: " + key);
      }
      var language := config.value;
      var got := GetOrCreateContainer(language);
      if got.Err? {
        Cleanup(sessionId);
        return Err(got.message);
      }
      var info := got.value;
      activeExecutions := activeExecutions[sessionId := info];
      var stream := Deploy(info.id, language, code);
      if stream.Err? {
        Cleanup(sessionId);
        return Err(stream.message);
      }
      return Ok(Execution(info.id, stream.value));
    }

    /**
     * Inside the running container: create the code directory, copy the code in as
     * the language's single source file, and start the language's command attached.
     */
    method Deploy(id: ContainerId, language: Language, code: string) returns (r: Result<StreamId>)
      requires Valid() && RunningIn(engine.containers, id)
      modifies engine
      ensures Valid()
      ensures r.Ok? ==> (RunningIn(engine.containers, id) &&
                         DeployedPath(language) in engine.containers[id].files &&
                         engine.containers[id].files[DeployedPath(language)] == code)
    {
      var made := engine.ExecDetached(id, ["mkdir", "-p", CodeDir]);
      if !made {
        return Err("cannot create " + CodeDir);
      }
      var copied := engine.PutArchive(id, CodeDir, FileName(language), code);
      if !copied {
        return Err("cannot copy code");
      }
      r := engine.ExecAttached(id, Command(language));
    }

    /** The stream ended: the session is no longer tracked, and the exit code is reported. */
    method OnStreamEnd(sessionId: string, inspection: Option<Option<int>>) returns (exitCode: int)
      modifies this
      ensures exitCode == ExitCodeOf(inspection)
      ensures activeExecutions == old(activeExecutions) - {sessionId}
      ensures languageContainers == old(languageContainers) && initialized == old(initialized)
    {
      exitCode := ExitCodeOf(inspection);
      activeExecutions := activeExecutions - {sessionId};
    }

    /** The stream failed: the error's message goes to the error sink and the session is no longer tracked. */
    method OnStreamError(sessionId: string, message: string) returns (errorText: string)
      modifies this
      ensures errorText == message
      ensures activeExecutions == old(activeExecutions) - {sessionId}
      ensures languageContainers == old(languageContainers) && initialized == old(initialized)
    {
      errorText := message;
      activeExecutions := activeExecutions - {sessionId};
    }

    /** Stop tracking the session's execution; its container stays in the pool. */
    method StopExecution(sessionId: string)
      modifies this
      ensures activeExecutions == old(activeExecutions) - {sessionId}
      ensures languageContainers == old(languageContainers) && initialized == old(initialized)
    {
      if sessionId in activeExecutions {
        activeExecutions := activeExecutions - {sessionId};
      }
    }

    method Cleanup(sessionId: string)
      modifies this
      ensures activeExecutions == old(activeExecutions) - {sessionId}
      ensures languageContainers == old(languageContainers) && initialized == old(initialized)
    {
      activeExecutions := activeExecutions - {sessionId};
    }

    /**
     * Stop and remove every pooled container, then forget the pool and all executions.
     * A container whose stop or removal fails is recorded in `failed` and left behind;
     * containers outside the pool are not touched.
     */
    method ShutdownAll() returns (ghost failed: set<Language>)
      requires engine.Valid()
      modifies this, engine
      ensures Valid()
      ensures languageContainers == map[] && activeExecutions == map[] && initialized == old(initialized)
      ensures failed <= old(languageContainers).Keys
      ensures forall l :: l in old(languageContainers) && l !in failed ==>
                            old(languageContainers)[l].id !in engine.containers
      ensures engine.containers.Keys <= old(engine.containers).Keys
      ensures forall id :: id in old(engine.containers) && id !in PoolIds(old(languageContainers)) ==>
                             id in engine.containers && engine.containers[id] == old(engine.containers)[id]
    {
      var remaining := languageContainers.Keys;
      failed := {};
      while remaining != {}
        invariant remaining <= languageContainers.Keys && failed <= languageContainers.Keys
        invariant languageContainers == old(languageContainers) && initialized == old(initialized)
        invariant engine.Valid() && engine.nextId == old(engine.nextId)
        invariant engine.containers.Keys <= old(engine.containers).Keys
        invariant forall id :: id in old(engine.containers) && id !in PoolIds(old(languageContainers)) ==>
                                 id in engine.containers && engine.containers[id] == old(engine.containers)[id]
        invariant forall l :: l in languageContainers && l !in remaining && l !in failed ==>
                                languageContainers[l].id !in engine.containers
        decreases |remaining|
      {
        var language :| language in remaining;
        var id := languageContainers[language].id;
        var removed := engine.Stop(id);
        if removed {
          removed := engine.Remove(id);
        }
        if !removed {
          failed := failed + {language};
        }
        remaining := remaining - {language};
      }
      languageContainers := map[];
      activeExecutions := map[];
    }
  }
}
