/**
 * The sandbox that runs submitted code. `executeCode` validates the file map,
 * stages it in a workspace directory named after the execution id, makes sure
 * the language's image exists, creates a container bind-mounting the
 * workspace, runs it with a timeout, and always deletes the workspace
 * afterwards. The container engine is not modelled: what each of its calls
 * does (succeeds or throws, the exit code, the captured output) is given as
 * a `DockerScript`.
 */
module Sandbox {
  import opened Base
  import opened Strings
  import opened Models
  import opened SecurityManager

  const DefaultWorkspaceRoot: string := "/tmp/executions"
  const DefaultTimeoutSeconds: nat := 30
  const DefaultMaxMemoryMb: int := 512
  const DefaultCpuShares: int := 512

  // ---------------------------------------------------------------------------
  // Images

  /** The image each language runs in. */
  function ImageName(language: Language): string
  {
    match language
    case KOTLIN => "coding-platform-kotlin:latest"
    case JAVA => "coding-platform-java:latest"
    case PYTHON => "coding-platform-python:latest"
  }

  /** `language.name.lowercase()`: the directory holding the language's Dockerfile. */
  function TemplateDirName(language: Language): string
  {
    match language
    case KOTLIN => "kotlin"
    case JAVA => "java"
    case PYTHON => "python"
  }

  /** The repository part of a language's image name. */
  function Repository(language: Language): string
  {
    "coding-platform-" + TemplateDirName(language)
  }

  lemma RepositoryHasNoColon(language: Language)
    ensures ':' !in Repository(language)
  {
    assert ':' !in TemplateDirName(language);
  }

  lemma ImageNameSpelled(language: Language)
    ensures ImageName(language) == Repository(language) + ":" + "latest"
  {
    match language {
      case KOTLIN => assert Repository(language) == "coding-platform-kotlin";
      case JAVA => assert Repository(language) == "coding-platform-java";
      case PYTHON => assert Repository(language) == "coding-platform-python";
    }
  }

  /** Each image is the repository `coding-platform-<language>` tagged `latest`. */
  lemma ImageNameShape(language: Language)
    ensures SplitTag(ImageName(language)) == (Repository(language), "latest")
  {
    ImageNameSpelled(language);
    RepositoryHasNoColon(language);
    SplitTagJoin(Repository(language), "latest");
  }

  /** The files already written while `pending` are still to be written. */
  function Written(files: FileMap, pending: set<string>): FileMap
  {
    map k | k in files && k !in pending :: files[k]
  }

  lemma WrittenBounds(files: FileMap, pending: set<string>, base: FileMap)
    ensures pending == files.Keys ==> base + Written(files, pending) == base
    ensures pending == {} ==> base + Written(files, pending) == base + files
  {
    if pending == files.Keys {
      assert Written(files, pending) == map[];
    }
    if pending == {} {
      assert Written(files, pending) == files;
    }
  }

  lemma WrittenStep(files: FileMap, pending: set<string>, path: string, base: FileMap)
    requires path in pending && pending <= files.Keys
    ensures base + Written(files, pending - {path}) == (base + Written(files, pending))[path := files[path]]
  {
    assert Written(files, pending - {path}) == Written(files, pending)[path := files[path]];
  }

  /** Splitting an image name and joining the halves with ':' gives the name back. */
  lemma ImageTagRejoins(language: Language)
    ensures SplitTag(ImageName(language)).0 + ":" + SplitTag(ImageName(language)).1 == ImageName(language)
  {
    ImageNameShape(language);
    ImageNameSpelled(language);
  }

  /** Different languages never share an image. */
  lemma ImageNamesDistinct(l1: Language, l2: Language)
    requires ImageName(l1) == ImageName(l2)
    ensures l1 == l2
  {
  }

  /**
   * `imageName.split(':')`: one piece gives the tag "latest", otherwise the
   * first two pieces are repository and tag and any further piece is dropped.
   */
  function SplitTag(name: string): (string, string)
  {
    var parts := Split(name, ':');
    if |parts| == 1 then (parts[0], "latest") else (parts[0], parts[1])
  }

  lemma SplitTagUntagged(name: string)
    requires ':' !in name
    ensures SplitTag(name) == (name, "latest")
  {
    SplitWhole(name, ':');
  }

  /** A `repository:tag` name splits back into its two halves. */
  lemma SplitTagJoin(repo: string, tag: string)
    requires ':' !in repo && ':' !in tag
    ensures SplitTag(repo + ":" + tag) == (repo, tag)
  {
    SplitWhole(tag, ':');
    SplitPiece(repo, tag, ':');
    assert repo + ":" + tag == repo + [':'] + tag;
  }

  /** A name with a second colon loses everything after it. */
  lemma SplitTagDropsRest(repo: string, tag: string, rest: string)
    requires ':' !in repo && ':' !in tag && ':' !in rest
    ensures SplitTag(repo + ":" + tag + ":" + rest) == (repo, tag)
  {
    SplitWhole(rest, ':');
    SplitPiece(tag, rest, ':');
    SplitPiece(repo, tag + [':'] + rest, ':');
    assert repo + ":" + tag + ":" + rest == repo + [':'] + (tag + [':'] + rest);
  }

  // ---------------------------------------------------------------------------
  // Paths, names and limits

  /**
   * `File(workspaceRoot, executionId)` as its absolute path, for a root that is
   * absolute and has no trailing '/' (the default `/tmp/executions` is). A
   * relative root would be resolved against the working directory and a
   * trailing '/' dropped; neither is modelled.
   */
  function WorkspaceDir(root: string, executionId: string): string
  {
    root + "/" + executionId
  }

  /** `path.replace(workspaceRoot, hostWorkspace)`: every occurrence is replaced. */
  function HostPath(path: string, root: string, host: string): string
  {
    ReplaceAll(path, root, host)
  }

  /** With no separate host directory configured, the path is used as it is. */
  lemma HostPathSameRoot(path: string, root: string)
    ensures HostPath(path, root, root) == path
  {
    ReplaceWithItself(path, root);
  }

  /**
   * A workspace is mounted from the same execution id under the host
   * directory (for a root of the shape `WorkspaceDir` describes).
   */
  lemma HostPathOfWorkspace(root: string, host: string, executionId: string)
    requires |root| > 0 && !Contains("/" + executionId, root)
    ensures HostPath(WorkspaceDir(root, executionId), root, host) == host + "/" + executionId
  {
    var rest := "/" + executionId;
    var path := WorkspaceDir(root, executionId);
    assert path == root + rest;
    assert path[..|root|] == root && path[|root|..] == rest;
    ReplaceAbsent(rest, root, host);
  }

  function ContainerName(executionId: string): string
  {
    "exec-" + executionId
  }

  lemma ContainerNamesDistinct(id1: string, id2: string)
    requires ContainerName(id1) == ContainerName(id2)
    ensures id1 == id2
  {
    assert id1 == ContainerName(id1)[5..];
  }

  const TwoTo63: int := 0x8000_0000_0000_0000

  /** Reduces an integer to the range of a Kotlin `Long`, wrapping around. */
  function WrapLong(x: int): (r: int)
    ensures -TwoTo63 <= r < TwoTo63
    ensures (r - x) % (2 * TwoTo63) == 0
  {
    (x + TwoTo63) % (2 * TwoTo63) - TwoTo63
  }

  /** `MAX_MEMORY_MB.toLong() * 1024 * 1024`, in 64-bit arithmetic. */
  function MemoryLimitBytes(mb: int): int
    requires -TwoTo63 <= mb < TwoTo63
  {
    WrapLong(WrapLong(mb * 1024) * 1024)
  }

  /** Below 2^43 MB the product does not overflow: the default is 512 MB = 536870912 bytes. */
  lemma MemoryLimitExact(mb: int)
    requires 0 <= mb < 0x800_0000_0000
    ensures MemoryLimitBytes(mb) == mb * 1048576
    ensures MemoryLimitBytes(DefaultMaxMemoryMb) == 536870912
  {
    WrapLongInRange(mb * 1024);
    WrapLongInRange(mb * 1024 * 1024);
    WrapLongInRange(DefaultMaxMemoryMb * 1024);
    WrapLongInRange(DefaultMaxMemoryMb * 1024 * 1024);
  }

  lemma WrapLongInRange(x: int)
    requires -TwoTo63 <= x < TwoTo63
    ensures WrapLong(x) == x
  {
  }

  /** 2^43 MB wraps around to the most negative Long. */
  lemma MemoryLimitOverflows()
    ensures MemoryLimitBytes(0x800_0000_0000) == -TwoTo63
  {
  }

  // ---------------------------------------------------------------------------
  // Classifying a run

  /** `runContainer`'s verdict on an exit code. */
  function Classify(exitCode: int): ExecutionStatus
  {
    if exitCode == 0 then SUCCESS
    else if exitCode == -1 then TIMEOUT
    else ExecutionStatus.FAILED
  }

  /** 0 is success, -1 a timeout, anything else a failure; a run is never classified ERROR. */
  lemma ClassifyIff(exitCode: int)
    ensures Classify(exitCode) == SUCCESS <==> exitCode == 0
    ensures Classify(exitCode) == TIMEOUT <==> exitCode == -1
    ensures Classify(exitCode) == ExecutionStatus.FAILED <==> exitCode != 0 && exitCode != -1
    ensures Classify(exitCode) != ERROR
  {
  }

  // ---------------------------------------------------------------------------
  // The container engine's behaviour

  /** One call to the engine: it returns, or throws with an optional message. */
  datatype Step = Done | Throws(message: Option<string>)

  /** Waiting for the container: it exits with a code, or the wait fails or times out. */
  datatype WaitOutcome = Exited(code: int) | WaitThrows

  /**
   * What the engine does during one execution: listing the images; building
   * the image (which also covers the check that its Dockerfile directory
   * exists) and tagging it, both only asked for when the listing is empty;
   * creating, starting and attaching to the logs of the container; waiting
   * for it; killing it (only after a failed wait); draining the log callback
   * in the `finally` block (`awaitCompletion`, then `close`); removing the
   * container; the text the container wrote to its two streams, and the
   * elapsed time.
   */
  datatype DockerScript = DockerScript(
    list: Step,
    build: Step,
    tag: Step,
    create: Step,
    start: Step,
    logs: Step,
    wait: WaitOutcome,
    kill: Step,
    drain: Step,
    remove: Step,
    stdout: string,
    stderr: string,
    durationMs: int)

  /** What `createContainerCmd` is asked to create. */
  datatype ContainerSpec = ContainerSpec(
    name: string,
    image: string,
    command: seq<string>,
    bindSource: string,
    bindTarget: string,
    workingDir: string,
    memoryBytes: int,
    memorySwapBytes: int,
    cpuShares: int,
    networkMode: string,
    readonlyRootfs: bool,
    dropAllCapabilities: bool,
    securityOpts: seq<string>,
    user: string,
    env: seq<string>)

  /** The manager's state: workspaces on disk, listed images, existing containers and every spec handed over. */
  datatype SandboxState = SandboxState(
    workspaces: map<string, FileMap>,
    images: set<string>,
    containers: set<string>,
    created: seq<ContainerSpec>)

  /** `runContainer`'s result. */
  datatype ContainerRun = ContainerRun(
    stdout: string,
    stderr: string,
    exitCode: int,
    status: ExecutionStatus,
    durationMs: int,
    memoryUsed: int)

  /** The exit code `runContainer` records: the container's own, or -1 after a failed wait. */
  function ExitCodeOf(script: DockerScript): int
  {
    if script.wait.Exited? then script.wait.code else -1
  }

  /** Whether the image is built: the listing succeeds without it and the build succeeds. */
  predicate Builds(imagePresent: bool, script: DockerScript)
  {
    !imagePresent && script.list.Done? && script.build.Done?
  }

  /**
   * Whether the container is created: the listing succeeds, the image is
   * there or is built and tagged, and creation succeeds.
   */
  predicate Created(imagePresent: bool, script: DockerScript)
  {
    script.list.Done? && (imagePresent || (script.build.Done? && script.tag.Done?)) && script.create.Done?
  }

  /**
   * The message of the exception `executeCode` catches, if an engine call
   * throws: the first one in call order, except that a throw while draining
   * the log callback in the `finally` block replaces the kill's.
   */
  function FirstFault(imagePresent: bool, script: DockerScript): Option<Option<string>>
  {
    if script.list.Throws? then Some(script.list.message)
    else if !imagePresent && script.build.Throws? then Some(script.build.message)
    else if !imagePresent && script.tag.Throws? then Some(script.tag.message)
    else if script.create.Throws? then Some(script.create.message)
    else if script.start.Throws? then Some(script.start.message)
    else if script.logs.Throws? then Some(script.logs.message)
    else if script.drain.Throws? then Some(script.drain.message)
    else if script.wait.WaitThrows? && script.kill.Throws? then Some(script.kill.message)
    else if script.remove.Throws? then Some(script.remove.message)
    else None
  }

  /** The container outlives the execution when it was created and a later call threw. */
  predicate LeavesContainer(imagePresent: bool, script: DockerScript)
  {
    Created(imagePresent, script) && FirstFault(imagePresent, script).Some?
  }

  /** The result of an execution whose engine call threw after staging. */
  function ErrorResult(executionId: string, message: Option<string>): ExecutionResult
  {
    ExecutionResult(executionId, ERROR, "", message, -1, 0, 0)
  }

  /** The result `executeCode` returns once the files passed validation. */
  function ExpectedResult(executionId: string, imagePresent: bool, script: DockerScript): ExecutionResult
  {
    match FirstFault(imagePresent, script)
    case Some(message) => ErrorResult(executionId, message)
    case None =>
      var code := ExitCodeOf(script);
      ExecutionResult(executionId, Classify(code), script.stdout, Some(script.stderr), code, script.durationMs, 0)
  }

  /**
   * The result carries the execution id and never a memory figure; it is an
   * ERROR exactly when an engine call threw, and then has empty output, exit
   * code -1 and the exception's message; otherwise its status classifies the
   * exit code, which is -1 after a failed wait.
   */
  lemma ExpectedResultShape(executionId: string, imagePresent: bool, script: DockerScript)
    ensures var r := ExpectedResult(executionId, imagePresent, script);
      r.executionId == executionId && r.memoryUsed == 0
      && (r.status == ERROR <==> FirstFault(imagePresent, script).Some?)
      && (r.status == ERROR ==>
            r.output == "" && r.exitCode == -1 && r.executionTime == 0
            && r.error == FirstFault(imagePresent, script).value)
      && (r.status != ERROR ==>
            r.status == Classify(r.exitCode) && r.output == script.stdout && r.error == Some(script.stderr)
            && (script.wait.WaitThrows? ==> r.exitCode == -1 && r.status == TIMEOUT))
  {
  }

  /** A container that exits with -1 on its own is indistinguishable from a timed-out one. */
  lemma ExitMinusOneReadsAsTimeout(executionId: string, imagePresent: bool, script: DockerScript)
    requires FirstFault(imagePresent, script).None? && script.wait == Exited(-1)
    ensures ExpectedResult(executionId, imagePresent, script).status == TIMEOUT
  {
  }

  /** Starting the container and failing leaves it behind: nothing removes it. */
  lemma FailedStartLeavesContainer(imagePresent: bool, script: DockerScript)
    requires imagePresent && script.list.Done? && script.create.Done? && script.start.Throws?
    ensures LeavesContainer(imagePresent, script)
    ensures ExpectedResult("", imagePresent, script).status == ERROR
  {
  }

  /** A present image is never rebuilt or retagged, so those steps' behaviour does not matter. */
  lemma PresentImageIgnoresBuild(executionId: string, script: DockerScript, build: Step, tag: Step)
    ensures ExpectedResult(executionId, true, script) == ExpectedResult(executionId, true, script.(build := build, tag := tag))
  {
  }

  // ---------------------------------------------------------------------------
  // The manager

  class DockerManager {
    const workspaceRoot: string
    const hostWorkspace: string
    const timeoutSeconds: nat
    const maxMemoryBytes: int
    const maxCpuShares: int

    /** Workspace directories on disk, each with its files by relative path. */
    var workspaces: map<string, FileMap>
    /** Image names the engine lists. */
    var images: set<string>
    /** Names of containers that exist in the engine. */
    var containers: set<string>
    /** Every container specification handed to the engine, in order. */
    var created: seq<ContainerSpec>

    constructor(workspaceRoot: string, hostWorkspace: string, timeoutSeconds: nat, maxMemoryMb: int,
                maxCpuShares: int, images: set<string>)
      requires -TwoTo63 <= maxMemoryMb < TwoTo63
      ensures this.workspaceRoot == workspaceRoot && this.hostWorkspace == hostWorkspace
      ensures this.timeoutSeconds == timeoutSeconds && this.maxCpuShares == maxCpuShares
      ensures maxMemoryBytes == MemoryLimitBytes(maxMemoryMb)
      ensures workspaces == map[] && this.images == images && containers == {} && created == []
    {
      this.workspaceRoot := workspaceRoot;
      this.hostWorkspace := hostWorkspace;
      this.timeoutSeconds := timeoutSeconds;
      this.maxMemoryBytes := MemoryLimitBytes(maxMemoryMb);
      this.maxCpuShares := maxCpuShares;
      this.workspaces := map[];
      this.images := images;
      this.containers := {};
      this.created := [];
    }

    function State(): SandboxState
      reads this
    {
      SandboxState(workspaces, images, containers, created)
    }

    /** The container specification for an execution. */
    function Spec(executionId: string, image: string, command: seq<string>): ContainerSpec
    {
      ContainerSpec(
        ContainerName(executionId), image, command,
        HostPath(WorkspaceDir(workspaceRoot, executionId), workspaceRoot, hostWorkspace), "/workspace",
        "/workspace", maxMemoryBytes, maxMemoryBytes, maxCpuShares, "bridge", false, true,
        ["no-new-privileges"], "1000:1000", ["EXECUTION_TIMEOUT=" + NatToString(timeoutSeconds)])
    }

    /** Files already in a directory; `createDirectories` keeps them. */
    function Existing(dir: string): FileMap
      reads this
    {
      if dir in workspaces then workspaces[dir] else map[]
    }

    /** `createWorkspace`: creates the directory and writes every file into it. */
    method CreateWorkspace(executionId: string, files: FileMap) returns (dir: string)
      modifies this
      ensures dir == WorkspaceDir(workspaceRoot, executionId)
      ensures workspaces == old(workspaces)[dir := old(Existing(dir)) + files]
      ensures images == old(images) && containers == old(containers) && created == old(created)
    {
      dir := WorkspaceDir(workspaceRoot, executionId);
      var base := Existing(dir);
      workspaces := workspaces[dir := base];
      var pending := files.Keys;
      WrittenBounds(files, pending, base);
      while pending != {}
        invariant pending <= files.Keys
        invariant workspaces == old(workspaces)[dir := base + Written(files, pending)]
        invariant images == old(images) && containers == old(containers) && created == old(created)
        decreases pending
      {
        var path :| path in pending;
        WrittenStep(files, pending, path, base);
        pending := pending - {path};
        workspaces := workspaces[dir := workspaces[dir][path := files[path]]];
      }
      WrittenBounds(files, pending, base);
    }

    /**
     * `ensureImageBuilt`: the image is built and tagged only when the engine
     * does not list it. The build already names the image, so a failing tag
     * leaves it built.
     */
    method EnsureImageBuilt(language: Language, script: DockerScript) returns (r: Result<string, Option<string>>)
      modifies this
      ensures script.list.Throws? ==> r == Err(script.list.message) && images == old(images)
      ensures script.list.Done? && ImageName(language) in old(images) ==>
        r == Ok(ImageName(language)) && images == old(images)
      ensures script.list.Done? && ImageName(language) !in old(images) && script.build.Throws? ==>
        r == Err(script.build.message) && images == old(images)
      ensures script.list.Done? && ImageName(language) !in old(images) && script.build.Done? ==>
        r == (if script.tag.Throws? then Err(script.tag.message) else Ok(ImageName(language)))
        && images == old(images) + {ImageName(language)}
      ensures workspaces == old(workspaces) && containers == old(containers) && created == old(created)
    {
      if script.list.Throws? {
        return Err(script.list.message);
      }
      var imageName := ImageName(language);
      if imageName !in images {
        if script.build.Throws? {
          return Err(script.build.message);
        }
        images := images + {imageName};
        ImageTagRejoins(language);
        var (repository, tag) := SplitTag(imageName);
        if script.tag.Throws? {
          return Err(script.tag.message);
        }
        images := images + {repository + ":" + tag};
      }
      r := Ok(imageName);
    }

    /** `createContainer`: the workspace is bind-mounted at /workspace under its host path. */
    method CreateContainer(executionId: string, image: string, command: seq<string>, create: Step)
      returns (r: Result<string, Option<string>>)
      modifies this
      ensures create.Done? ==>
        r == Ok(ContainerName(executionId)) && containers == old(containers) + {ContainerName(executionId)}
        && created == old(created) + [Spec(executionId, image, command)]
      ensures create.Throws? ==> r == Err(create.message) && containers == old(containers) && created == old(created)
      ensures workspaces == old(workspaces) && images == old(images)
    {
      if create.Throws? {
        return Err(create.message);
      }
      var spec := Spec(executionId, image, command);
      containers := containers + {spec.name};
      created := created + [spec];
      r := Ok(spec.name);
    }

    /**
     * `runContainer`: starts the container, follows its logs, waits for it,
     * kills it if the wait fails, drains the log callback, force-removes the
     * container and classifies the exit code.
     */
    method RunContainer(name: string, script: DockerScript) returns (r: Result<ContainerRun, Option<string>>)
      modifies this
      ensures var fault := FirstFault(true, script.(list := Done, create := Done));
        (fault.Some? ==> r == Err(fault.value) && containers == old(containers))
        && (fault.None? ==>
              r == Ok(ContainerRun(script.stdout, script.stderr, ExitCodeOf(script), Classify(ExitCodeOf(script)),
                                   script.durationMs, 0))
              && containers == old(containers) - {name})
      ensures workspaces == old(workspaces) && images == old(images) && created == old(created)
    {
      if script.start.Throws? {
        return Err(script.start.message);
      }
      if script.logs.Throws? {
        return Err(script.logs.message);
      }
      var exitCode;
      var thrown: Option<Option<string>> := None;
      match script.wait {
        case Exited(code) =>
          exitCode := code;
        case WaitThrows =>
          if script.kill.Throws? {
            thrown := Some(script.kill.message);
          }
          exitCode := -1;
      }
      if script.drain.Throws? {
        return Err(script.drain.message);
      }
      if thrown.Some? {
        return Err(thrown.value);
      }
      if script.remove.Throws? {
        return Err(script.remove.message);
      }
      containers := containers - {name};
      var status := if exitCode == 0 then SUCCESS else if exitCode == -1 then TIMEOUT else ExecutionStatus.FAILED;
      r := Ok(ContainerRun(script.stdout, script.stderr, exitCode, status, script.durationMs, 0));
    }

    /** `cleanupWorkspace`: deletes the directory and everything in it. */
    method CleanupWorkspace(dir: string)
      modifies this
      ensures workspaces == old(workspaces) - {dir}
      ensures images == old(images) && containers == old(containers) && created == old(created)
    {
      workspaces := workspaces - {dir};
    }

    /**
     * `executeCode`. A map that fails validation is refused before anything
     * is written. Otherwise the workspace is staged, the engine is driven as
     * `script` says, any exception is turned into an ERROR result, and the
     * workspace is gone afterwards on every path.
     */
    method ExecuteCode(executionId: string, language: Language, files: FileMap, command: seq<string>,
                       script: DockerScript)
      returns (r: Result<ExecutionResult, set<string>>)
      modifies this
      ensures ValidateFiles(files).Fail? ==>
        r == Err(ValidateFiles(files).error)
        && workspaces == old(workspaces) && images == old(images) && containers == old(containers)
        && created == old(created)
      ensures ValidateFiles(files).Pass? ==>
        var imagePresent := ImageName(language) in old(images);
        r == Ok(ExpectedResult(executionId, imagePresent, script))
        && workspaces == old(workspaces) - {WorkspaceDir(workspaceRoot, executionId)}
        && images == old(images) + (if Builds(imagePresent, script) then {ImageName(language)} else {})
        && containers == (if LeavesContainer(imagePresent, script) then old(containers) + {ContainerName(executionId)}
                          else if Created(imagePresent, script) then old(containers) - {ContainerName(executionId)}
                          else old(containers))
        && created == old(created) + (if Created(imagePresent, script) then [Spec(executionId, ImageName(language), command)] else [])
    {
      var validation := ValidateFiles(files);
      if validation.Fail? {
        return Err(validation.error);
      }
      var dir := CreateWorkspace(executionId, files);
      var result := RunInEngine(executionId, language, command, script);
      CleanupWorkspace(dir);
      r := Ok(result);
    }

    /** The engine's part of `executeCode`: image, container, run, each exception an ERROR result. */
    method RunInEngine(executionId: string, language: Language, command: seq<string>, script: DockerScript)
      returns (r: ExecutionResult)
      modifies this
      ensures var imagePresent := ImageName(language) in old(images);
        r == ExpectedResult(executionId, imagePresent, script)
        && workspaces == old(workspaces)
        && images == old(images) + (if Builds(imagePresent, script) then {ImageName(language)} else {})
        && containers == (if LeavesContainer(imagePresent, script) then old(containers) + {ContainerName(executionId)}
                          else if Created(imagePresent, script) then old(containers) - {ContainerName(executionId)}
                          else old(containers))
        && created == old(created) + (if Created(imagePresent, script) then [Spec(executionId, ImageName(language), command)] else [])
    {
      var image := EnsureImageBuilt(language, script);
      if image.Err? {
        return ErrorResult(executionId, image.error);
      }
      var container := CreateContainer(executionId, image.value, command, script.create);
      if container.Err? {
        return ErrorResult(executionId, container.error);
      }
      var run := RunContainer(container.value, script);
      if run.Err? {
        return ErrorResult(executionId, run.error);
      }
      var result := run.value;
      r := ExecutionResult(executionId, result.status, result.stdout, Some(result.stderr),
                           result.exitCode, result.durationMs, result.memoryUsed);
    }
  }
}
